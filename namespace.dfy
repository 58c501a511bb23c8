/** The namespace normaliser `remove_namespace`: every element tag written in
    Clark notation `{uri}local` is cut down to what follows the first `}`. */
module Namespace {
  import opened Text

  /** A node of the parsed document, in document order. Comments, processing
      instructions and entities have no string tag and are left alone. */
  datatype Node = Element(tag: string) | Other(content: string)

  /** The tag opens with `{` and has a `}` somewhere. */
  predicate HasNamespace(tag: string)
  {
    |tag| > 0 && tag[0] == '{' && '}' in tag
  }

  /** The rewrite of one tag: `tag[tag.find('}') + 1:]` when the tag opens with `{`.
      A tag opening with `{` but holding no `}` gives `find == -1`, so the slice
      starts at 0 and the tag is kept. */
  function StripNamespace(tag: string): (r: string)
    ensures HasNamespace(tag) ==>
              |r| < |tag| && tag[|tag| - |r|..] == r && tag[|tag| - |r| - 1] == '}'
              && '}' !in tag[..|tag| - |r| - 1]
    ensures !HasNamespace(tag) ==> r == tag
  {
    if |tag| > 0 && tag[0] == '{' then tag[Find(tag, '}') + 1..] else tag
  }

  /** A tag is left unchanged exactly when it carries no namespace. */
  lemma StripNamespaceFixedPoint(tag: string)
    ensures StripNamespace(tag) == tag <==> !HasNamespace(tag)
  {
    if HasNamespace(tag) {
      assert |StripNamespace(tag)| < |tag|;
    }
  }

  /** Stripping twice equals stripping once exactly when the first result has no
      namespace of its own. */
  lemma StripTwice(tag: string)
    ensures StripNamespace(StripNamespace(tag)) == StripNamespace(tag)
            <==> !HasNamespace(StripNamespace(tag))
  {
    StripNamespaceFixedPoint(StripNamespace(tag));
  }

  /** For a Clark tag whose local part is an XML name (no braces), one strip
      yields the local part and a second strip changes nothing. */
  lemma StripClarkTag(uri: string, local: string)
    requires '}' !in uri
    requires '{' !in local
    ensures StripNamespace("{" + uri + "}" + local) == local
    ensures StripNamespace(StripNamespace("{" + uri + "}" + local)) == local
  {
    var tag := "{" + uri + "}" + local;
    assert tag[|uri| + 1] == '}';
    assert tag[1..|uri| + 1] == uri;
    var i := Find(tag, '}');
    assert tag[..|uri| + 1] == "{" + uri;
    assert i == |uri| + 1;
    assert tag[i + 1..] == local;
    if |local| > 0 {
      assert local[0] in local;
    }
  }

  /** The rewrite is not idempotent on every string: a tag with two brace groups
      loses one group per pass. */
  lemma StripNotIdempotent()
    ensures StripNamespace("{a}{b}c") == "{b}c"
    ensures StripNamespace(StripNamespace("{a}{b}c")) == "c"
  {
    var t := "{a}{b}c";
    assert t[0] == '{' && t[1] == 'a' && t[2] == '}';
    assert Find(t, '}') == 2;
    var u := "{b}c";
    assert u[0] == '{' && u[1] == 'b' && u[2] == '}';
    assert Find(u, '}') == 2;
  }

  /** The rewrite of one node: an element gets its stripped tag, any other
      node stays as it is. */
  function Normalize(n: Node): (r: Node)
  {
    match n
    case Element(t) => Element(StripNamespace(t))
    case Other(_) => n
  }

  /** The body of the loop of `remove_namespace` for one node: an element
      whose tag opens with `{` loses everything up to the first `}`. */
  method StripNode(node: Node) returns (r: Node)
    ensures r == Normalize(node)
  {
    r := node;
    if node.Element? && |node.tag| > 0 && node.tag[0] == '{' {
      var nsLength := Find(node.tag, '}') + 1;
      r := Element(node.tag[nsLength..]);
    }
  }

  /** `remove_namespace`: rewrites the tag of every element node of the document in place. */
  method RemoveNamespace(doc: array<Node>)
    modifies doc
    ensures forall i | 0 <= i < doc.Length :: doc[i] == Normalize(old(doc[i]))
  {
    ghost var orig := doc[..];
    var i := 0;
    while i < doc.Length
      invariant 0 <= i <= doc.Length
      invariant forall k | 0 <= k < i :: doc[k] == Normalize(orig[k])
      invariant doc[i..] == orig[i..]
    {
      assert doc[i] == orig[i..][0];
      var node := StripNode(doc[i]);
      doc[i] := node;
      i := i + 1;
    }
  }
}
