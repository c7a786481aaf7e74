/**
 * Image extraction from an RSS item's HTML description (`extractImagesFromHTML`
 * in pkg/models/rss.go). Tokenising and tree building (`html.Parse`) are not
 * modelled: the extractor starts from the already-built element tree.
 */
module HtmlImages {

  import opened Strings

  /** The node kinds of an HTML parse tree. */
  datatype NodeType = ErrorNode | TextNode | DocumentNode | ElementNode | CommentNode | DoctypeNode | RawNode

  datatype Attribute = Attribute(key: string, val: string)

  /** A parse-tree node: its kind, its tag name (or text), its attributes and its children in document order. */
  datatype Node = Node(kind: NodeType, data: string, attrs: seq<Attribute>, children: seq<Node>)

  /** An image as stored with an article (`db.ArticleImage`, persistence fields left out). */
  datatype ArticleImage = ArticleImage(url: string, altText: string, isMain: bool)

  /** The `src` and `alt` read off one `img` element. */
  datatype Candidate = Candidate(src: string, alt: string)

  /** The value the attribute loop leaves for `key`: that of the last attribute named `key`, or `""`. */
  function LastValue(attrs: seq<Attribute>, key: string): string
    decreases |attrs|
  {
    if attrs == [] then ""
    else if attrs[|attrs| - 1].key == key then attrs[|attrs| - 1].val
    else LastValue(attrs[..|attrs| - 1], key)
  }

  /** A key that no attribute carries reads as `""` (a missing `alt` gives an empty alt text). */
  lemma {:induction false} LastValueAbsent(attrs: seq<Attribute>, key: string)
    requires forall i :: 0 <= i < |attrs| ==> attrs[i].key != key
    ensures LastValue(attrs, key) == ""
    decreases |attrs|
  {
    if attrs != [] {
      LastValueAbsent(attrs[..|attrs| - 1], key);
    }
  }

  /** When a key repeats, the value of its last occurrence wins. */
  lemma {:induction false} LastValueWins(attrs: seq<Attribute>, key: string, i: int)
    requires 0 <= i < |attrs| && attrs[i].key == key
    requires forall j :: i < j < |attrs| ==> attrs[j].key != key
    ensures LastValue(attrs, key) == attrs[i].val
    decreases |attrs|
  {
    if i < |attrs| - 1 {
      LastValueWins(attrs[..|attrs| - 1], key, i);
    }
  }

  predicate IsImg(n: Node) {
    n.kind == ElementNode && n.data == "img"
  }

  /** What a node contributes by itself: one candidate when it is an `img` with a non-empty `src`. */
  function Own(n: Node): seq<Candidate> {
    if IsImg(n) && LastValue(n.attrs, "src") != "" then
      [Candidate(LastValue(n.attrs, "src"), LastValue(n.attrs, "alt"))]
    else []
  }

  /** The candidates of a subtree, the node itself first and then its children's subtrees in order. */
  function Kept(n: Node): seq<Candidate>
    decreases n
  {
    Own(n) + KeptAll(n.children)
  }

  /** The candidates of a run of sibling subtrees. */
  function KeptAll(cs: seq<Node>): seq<Candidate>
    decreases cs
  {
    if cs == [] then [] else KeptAll(cs[..|cs| - 1]) + Kept(cs[|cs| - 1])
  }

  /** Turns candidates into images; the one at overall position 0 is the main image. */
  function Mark(cands: seq<Candidate>, offset: nat): (r: seq<ArticleImage>)
    ensures |r| == |cands|
    ensures forall k :: 0 <= k < |r| ==>
      r[k].url == cands[k].src && r[k].altText == cands[k].alt && (r[k].isMain <==> offset + k == 0)
  {
    seq(|cands|, k requires 0 <= k < |cands| => ArticleImage(cands[k].src, cands[k].alt, offset + k == 0))
  }

  /** The images extracted from a parsed document. */
  function Extracted(doc: Node): seq<ArticleImage> {
    Mark(Kept(doc), 0)
  }

  lemma MarkAppend(a: seq<Candidate>, b: seq<Candidate>, offset: nat)
    ensures Mark(a + b, offset) == Mark(a, offset) + Mark(b, offset + |a|)
  {
  }

  /** The attribute loop of the visitor: reads `src` and `alt`, a later attribute overriding an earlier one. */
  method ReadSrcAlt(attrs: seq<Attribute>) returns (src: string, alt: string)
    ensures src == LastValue(attrs, "src") && alt == LastValue(attrs, "alt")
  {
    src, alt := "", "";
    var i := 0;
    while i < |attrs|
      invariant 0 <= i <= |attrs|
      invariant src == LastValue(attrs[..i], "src")
      invariant alt == LastValue(attrs[..i], "alt")
    {
      assert attrs[..i + 1][..i] == attrs[..i];
      if attrs[i].key == "src" {
        src := attrs[i].val;
      }
      if attrs[i].key == "alt" {
        alt := attrs[i].val;
      }
      i := i + 1;
    }
    assert attrs[..i] == attrs;
  }

  /** The visitor's work on the node itself, before its children. */
  method VisitNode(n: Node, acc: seq<ArticleImage>) returns (images: seq<ArticleImage>)
    ensures images == acc + Mark(Own(n), |acc|)
  {
    images := acc;
    if n.kind == ElementNode && n.data == "img" {
      var src, alt := ReadSrcAlt(n.attrs);
      if src != "" {
        var isMain := |images| == 0;
        images := images + [ArticleImage(src, alt, isMain)];
      }
    }
  }

  /** Appending a subtree's images to what the walk has marked so far marks the concatenation. */
  lemma WalkStep(acc: seq<ArticleImage>, done: seq<Candidate>, next: seq<Candidate>,
                 before: seq<ArticleImage>, after: seq<ArticleImage>)
    requires before == acc + Mark(done, |acc|)
    requires after == before + Mark(next, |before|)
    ensures after == acc + Mark(done + next, |acc|)
  {
    MarkAppend(done, next, |acc|);
  }

  lemma KeptAllStep(cs: seq<Node>, j: nat)
    requires j < |cs|
    ensures KeptAll(cs[..j + 1]) == KeptAll(cs[..j]) + Kept(cs[j])
  {
    assert cs[..j + 1][..j] == cs[..j];
  }

  /**
   * The recursive visitor of `extractImagesFromHTML`: `acc` is the image list
   * built so far, to which this subtree's images are appended; an image is the
   * main one exactly when the list was empty when it was found.
   */
  method Walk(n: Node, acc: seq<ArticleImage>) returns (images: seq<ArticleImage>)
    ensures images == acc + Mark(Kept(n), |acc|)
    decreases n, 1
  {
    var own := VisitNode(n, acc);
    images := WalkChildren(n.children, own);
    WalkStep(acc, Own(n), KeptAll(n.children), own, images);
  }

  /** The visitor's loop over a node's children, first child to last. */
  method WalkChildren(cs: seq<Node>, acc: seq<ArticleImage>) returns (images: seq<ArticleImage>)
    ensures images == acc + Mark(KeptAll(cs), |acc|)
    decreases cs, 0
  {
    images := acc;
    ghost var done: seq<Candidate> := [];
    assert cs[..0] == [];
    var j := 0;
    while j < |cs|
      invariant 0 <= j <= |cs|
      invariant done == KeptAll(cs[..j])
      invariant images == acc + Mark(done, |acc|)
    {
      ghost var before := images;
      images := Walk(cs[j], images);
      WalkStep(acc, done, Kept(cs[j]), before, images);
      KeptAllStep(cs, j);
      done := done + Kept(cs[j]);
      j := j + 1;
    }
    assert cs[..j] == cs;
  }

  /** `extractImagesFromHTML` after parsing: walks the whole document from an empty list. */
  method ExtractImagesFromHTML(doc: Node) returns (images: seq<ArticleImage>)
    ensures images == Extracted(doc)
  {
    images := Walk(doc, []);
  }

  // ------------------------------------------------------------ properties

  /** Every extracted image has a non-empty URL. */
  lemma ExtractedHaveUrls(doc: Node)
    ensures forall img :: img in Extracted(doc) ==> img.url != ""
  {
    KeptHaveSrc(doc);
  }

  lemma {:induction false} KeptHaveSrc(n: Node)
    ensures forall c :: c in Kept(n) ==> c.src != ""
    decreases n
  {
    KeptAllHaveSrc(n.children);
  }

  lemma {:induction false} KeptAllHaveSrc(cs: seq<Node>)
    ensures forall c :: c in KeptAll(cs) ==> c.src != ""
    decreases cs
  {
    if cs != [] {
      KeptAllHaveSrc(cs[..|cs| - 1]);
      KeptHaveSrc(cs[|cs| - 1]);
    }
  }

  /** Exactly the first extracted image is the main one. */
  lemma MainIsFirst(doc: Node)
    ensures forall k :: 0 <= k < |Extracted(doc)| ==> (Extracted(doc)[k].isMain <==> k == 0)
  {
  }

  /** Whether a subtree holds an `img` element with a non-empty `src`. */
  predicate HasSourcedImg(n: Node)
    decreases n
  {
    (IsImg(n) && LastValue(n.attrs, "src") != "") || exists i :: 0 <= i < |n.children| && HasSourcedImg(n.children[i])
  }

  /** The extraction is empty exactly when no `img` element in the tree has a non-empty `src`
      (in particular for a tree with no `img` at all). */
  lemma {:induction false} ExtractedEmptyIff(doc: Node)
    ensures Extracted(doc) == [] <==> !HasSourcedImg(doc)
    decreases doc
  {
    KeptAllEmptyIff(doc.children);
  }

  lemma {:induction false} KeptAllEmptyIff(cs: seq<Node>)
    ensures KeptAll(cs) == [] <==> forall i :: 0 <= i < |cs| ==> !HasSourcedImg(cs[i])
    decreases cs
  {
    if cs != [] {
      var init := cs[..|cs| - 1];
      KeptAllEmptyIff(init);
      ExtractedEmptyIff(cs[|cs| - 1]);
      forall i | 0 <= i < |init| ensures init[i] == cs[i] { }
    }
  }

  /** The nodes of a subtree in pre-order (document order). */
  function PreOrder(n: Node): seq<Node>
    decreases n
  {
    [n] + PreOrderAll(n.children)
  }

  function PreOrderAll(cs: seq<Node>): seq<Node>
    decreases cs
  {
    if cs == [] then [] else PreOrderAll(cs[..|cs| - 1]) + PreOrder(cs[|cs| - 1])
  }

  /** The candidates of a flat list of nodes, each node taken by itself. */
  function OwnAll(ns: seq<Node>): seq<Candidate>
    decreases |ns|
  {
    if ns == [] then [] else OwnAll(ns[..|ns| - 1]) + Own(ns[|ns| - 1])
  }

  lemma {:induction false} OwnAllAppend(a: seq<Node>, b: seq<Node>)
    ensures OwnAll(a + b) == OwnAll(a) + OwnAll(b)
    decreases |b|
  {
    if b == [] {
      assert a + b == a;
    } else {
      var front, last := b[..|b| - 1], b[|b| - 1];
      calc {
        OwnAll(a + b);
      == { assert (a + b)[..|a + b| - 1] == a + front && (a + b)[|a + b| - 1] == last; }
        OwnAll(a + front) + Own(last);
      == { OwnAllAppend(a, front); }
        (OwnAll(a) + OwnAll(front)) + Own(last);
      ==
        OwnAll(a) + (OwnAll(front) + Own(last));
      }
    }
  }

  /** Images come out in document order: the extraction visits the nodes of the
      pre-order listing one by one and keeps each `img` with a non-empty `src`. */
  lemma {:induction false} KeptIsPreOrder(n: Node)
    ensures Kept(n) == OwnAll(PreOrder(n))
    decreases n
  {
    KeptAllIsPreOrder(n.children);
    OwnAllAppend([n], PreOrderAll(n.children));
    assert OwnAll([n]) == Own(n) by {
      assert [n][..0] == [];
    }
  }

  lemma {:induction false} KeptAllIsPreOrder(cs: seq<Node>)
    ensures KeptAll(cs) == OwnAll(PreOrderAll(cs))
    decreases cs
  {
    if cs != [] {
      KeptAllIsPreOrder(cs[..|cs| - 1]);
      KeptIsPreOrder(cs[|cs| - 1]);
      OwnAllAppend(PreOrderAll(cs[..|cs| - 1]), PreOrder(cs[|cs| - 1]));
    }
  }

  // -------------------------------------------------------------- examples

  function Element(tag: string, attrs: seq<Attribute>, children: seq<Node>): Node {
    Node(ElementNode, tag, attrs, children)
  }

  /** A `src`-less `img` before a sourced one is skipped and does not take the main slot. */
  lemma SourcelessImgSkipped()
    ensures Extracted(Element("div", [], [
              Element("img", [Attribute("alt", "No source")], []),
              Element("img", [Attribute("src", "https://example.com/valid.jpg"), Attribute("alt", "Valid")], [])]))
            == [ArticleImage("https://example.com/valid.jpg", "Valid", true)]
  {
    var a := Element("img", [Attribute("alt", "No source")], []);
    var b := Element("img", [Attribute("src", "https://example.com/valid.jpg"), Attribute("alt", "Valid")], []);
    var d := Element("div", [], [a, b]);
    assert Kept(a) == [];
    assert Kept(b) == [Candidate("https://example.com/valid.jpg", "Valid")];
    assert [a, b][..1] == [a];
    assert [a][..0] == [];
    assert KeptAll([a, b]) == Kept(b);
  }

  /** Nested images come out in document order, the first one main. */
  lemma NestedImagesInOrder()
    ensures Extracted(Element("div", [], [
              Element("div", [], [Element("span", [], [Element("img", [Attribute("src", "n1"), Attribute("alt", "Nested 1")], [])])]),
              Element("div", [], [Element("img", [Attribute("src", "n2"), Attribute("alt", "Nested 2")], [])])]))
            == [ArticleImage("n1", "Nested 1", true), ArticleImage("n2", "Nested 2", false)]
  {
    var i1 := Element("img", [Attribute("src", "n1"), Attribute("alt", "Nested 1")], []);
    var i2 := Element("img", [Attribute("src", "n2"), Attribute("alt", "Nested 2")], []);
    var span := Element("span", [], [i1]);
    var d1 := Element("div", [], [span]);
    var d2 := Element("div", [], [i2]);
    assert [i1][..0] == [] && [span][..0] == [] && [i2][..0] == [] && [d1, d2][..1] == [d1] && [d1][..0] == [];
    assert Kept(i1) == [Candidate("n1", "Nested 1")];
    assert Kept(i2) == [Candidate("n2", "Nested 2")];
    assert Kept(span) == Kept(i1);
    assert Kept(d1) == Kept(i1);
    assert Kept(d2) == Kept(i2);
    assert KeptAll([d1, d2]) == Kept(i1) + Kept(i2);
  }
}
