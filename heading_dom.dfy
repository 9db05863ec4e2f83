/**
 * Title extraction over an abstract document. A parsed HTML fragment is the
 * sequence of its elements in document order; the browser's parser and
 * serialiser, and `Number()`, are supplied from outside.
 */
module HeadingDom {
  import opened Wrappers
  import opened JsString

  /** The result of JavaScript's `Number(...)`; its conversion rules are not modelled. */
  type JsNumber(==)

  /** One element of the parsed fragment: tag name, whether it carries `data-heading`, text content, `id` attribute. */
  datatype Element = Element(tagName: string, dataHeading: bool, textContent: string, id: Option<string>)

  /** One table-of-contents entry (`TitleItem` in the source). */
  datatype TitleItem = TitleItem(url: string, title: string, level: JsNumber)

  /**
   * Whether `document` is defined. When it is, `parse` stands for
   * `div.innerHTML = html` and `serialize` for reading `div.innerHTML` back.
   */
  datatype Document =
    | Undefined
    | Available(parse: string -> seq<Element>, serialize: seq<Element> -> string)

  /**
   * `querySelectorAll('[data-heading]')`: the positions of exactly the
   * elements marked as headings, in document order.
   */
  function HeadingIndices(doc: seq<Element>): (r: seq<nat>)
    ensures forall k :: 0 <= k < |r| ==> r[k] < |doc| && doc[r[k]].dataHeading
    ensures forall k, l :: 0 <= k < l < |r| ==> r[k] < r[l]
    ensures forall j :: 0 <= j < |doc| && doc[j].dataHeading ==> j in r
  {
    if doc == [] then []
    else
      var front := HeadingIndices(doc[..|doc| - 1]);
      if doc[|doc| - 1].dataHeading then front + [|doc| - 1] else front
  }

  /** The headings of a prefix of the document are a prefix of its headings. */
  lemma {:induction false} HeadingIndicesPrefix(doc: seq<Element>, m: nat)
    requires m <= |doc|
    ensures HeadingIndices(doc[..m]) <= HeadingIndices(doc)
    decreases |doc|
  {
    if m == |doc| {
      assert doc[..m] == doc;
    } else {
      var front := doc[..|doc| - 1];
      assert front[..m] == doc[..m];
      HeadingIndicesPrefix(front, m);
    }
  }

  /** How many headings come before position `j`. */
  function Rank(doc: seq<Element>, j: nat): nat
    requires j <= |doc|
  {
    |HeadingIndices(doc[..j])|
  }

  /** The k-th selected heading has exactly k headings before it. */
  lemma RankOfSelected(doc: seq<Element>, k: nat)
    requires k < |HeadingIndices(doc)|
    ensures Rank(doc, HeadingIndices(doc)[k]) == k
  {
    var sel := HeadingIndices(doc);
    var j := sel[k];
    HeadingIndicesPrefix(doc, j + 1);
    var prefix := doc[..j + 1];
    assert prefix[..|prefix| - 1] == doc[..j];
    var upto := HeadingIndices(prefix);
    var r := Rank(doc, j);
    assert upto == HeadingIndices(doc[..j]) + [j];
    assert sel[r] == upto[r] == j;
  }

  /** What the title extractor leaves at position `j`: a heading gets the id of its rank. */
  function StampAt(doc: seq<Element>, j: nat): Element
    requires j < |doc|
  {
    if doc[j].dataHeading then doc[j].(id := Some(NatToDecimal(Rank(doc, j)))) else doc[j]
  }

  /** The fragment after the extractor's `setAttribute('id', ...)` calls. */
  function Stamp(doc: seq<Element>): (r: seq<Element>)
    ensures |r| == |doc|
    ensures forall j :: 0 <= j < |doc| && !doc[j].dataHeading ==> r[j] == doc[j]
    ensures forall j :: 0 <= j < |doc| ==> r[j].(id := doc[j].id) == doc[j] && r[j].id.Some? == (doc[j].id.Some? || doc[j].dataHeading)
  {
    seq(|doc|, j requires 0 <= j < |doc| => StampAt(doc, j))
  }

  /** `doc` is `original` with the first `i` selected headings stamped (the extraction loop's invariant). */
  ghost predicate StampedUpTo(original: seq<Element>, doc: seq<Element>, i: nat) {
    var sel := HeadingIndices(original);
    && i <= |sel|
    && |doc| == |original|
    && forall j :: 0 <= j < |doc| ==> doc[j] == if j in sel[..i] then StampAt(original, j) else original[j]
  }

  lemma StampedUpToStart(original: seq<Element>)
    ensures StampedUpTo(original, original, 0)
  {
  }

  /** Stamping the i-th heading with `${i}` extends the stamped prefix by one. */
  lemma StampedUpToStep(original: seq<Element>, doc: seq<Element>, i: nat)
    requires StampedUpTo(original, doc, i) && i < |HeadingIndices(original)|
    ensures HeadingIndices(original)[i] < |doc|
    ensures doc[HeadingIndices(original)[i]] == original[HeadingIndices(original)[i]]
    ensures var p := HeadingIndices(original)[i];
            StampedUpTo(original, doc[p := doc[p].(id := Some(NatToDecimal(i)))], i + 1)
  {
    var sel := HeadingIndices(original);
    var p := sel[i];
    assert p !in sel[..i];
    RankOfSelected(original, i);
    assert sel[..i + 1] == sel[..i] + [p];
  }

  /** Once every heading is stamped, the fragment is `Stamp(original)`. */
  lemma StampedUpToEnd(original: seq<Element>, doc: seq<Element>)
    requires StampedUpTo(original, doc, |HeadingIndices(original)|)
    ensures doc == Stamp(original)
  {
    var sel := HeadingIndices(original);
    assert sel[..|sel|] == sel;
  }

  /** The title list grows by the entry of the next heading. */
  lemma TitlesStep(number: string -> JsNumber, doc: seq<Element>, i: nat)
    requires i < |HeadingIndices(doc)|
    ensures Titles(number, doc)[..i + 1] == Titles(number, doc)[..i] + [TitleOf(number, i, doc[HeadingIndices(doc)[i]])]
  {
  }

  /** One title-list entry for the k-th heading: `#k`, the unaltered text content, `Number(tagName.slice(1))`. */
  function TitleOf(number: string -> JsNumber, k: nat, e: Element): TitleItem {
    TitleItem("#" + NatToDecimal(k), e.textContent, number(SliceFrom(e.tagName, 1)))
  }

  /** The title list the extractor builds for a fragment. */
  function Titles(number: string -> JsNumber, doc: seq<Element>): (r: seq<TitleItem>)
    ensures |r| == |HeadingIndices(doc)|
    ensures forall k :: 0 <= k < |r| ==> r[k].url == "#" + NatToDecimal(k)
    ensures forall k :: 0 <= k < |r| ==> r[k].title == doc[HeadingIndices(doc)[k]].textContent
  {
    var sel := HeadingIndices(doc);
    seq(|sel|, k requires 0 <= k < |sel| => TitleOf(number, k, doc[sel[k]]))
  }

  /**
   * One entry per heading element, in document order: entry k links to `#k`,
   * carries the heading's text as it is (not trimmed) and the number formed
   * by its tag name after the first character.
   */
  lemma TitlesPerHeading(number: string -> JsNumber, doc: seq<Element>, j: nat)
    requires j < |doc| && doc[j].dataHeading
    ensures Rank(doc, j) < |Titles(number, doc)|
    ensures Titles(number, doc)[Rank(doc, j)].url == "#" + NatToDecimal(Rank(doc, j))
    ensures Titles(number, doc)[Rank(doc, j)].title == doc[j].textContent
    ensures Titles(number, doc)[Rank(doc, j)].level == number(SliceFrom(doc[j].tagName, 1))
  {
    var sel := HeadingIndices(doc);
    var k :| 0 <= k < |sel| && sel[k] == j;
    RankOfSelected(doc, k);
  }

  /** The k-th heading receives the id `${k}` and keeps everything else (for the other elements see `Stamp`). */
  lemma StampNumbersHeadings(doc: seq<Element>, k: nat)
    requires k < |HeadingIndices(doc)|
    ensures Stamp(doc)[HeadingIndices(doc)[k]] == doc[HeadingIndices(doc)[k]].(id := Some(NatToDecimal(k)))
  {
    RankOfSelected(doc, k);
  }

  /** Stamping changes only `id` attributes, so it selects the same headings. */
  lemma StampKeepsHeadings(doc: seq<Element>)
    ensures |Stamp(doc)| == |doc|
    ensures forall j :: 0 <= j < |doc| ==> Stamp(doc)[j].dataHeading == doc[j].dataHeading
    ensures forall j :: 0 <= j < |doc| ==> Stamp(doc)[j].textContent == doc[j].textContent
    ensures forall j :: 0 <= j < |doc| ==> Stamp(doc)[j].tagName == doc[j].tagName
    ensures HeadingIndices(Stamp(doc)) == HeadingIndices(doc)
  {
    SameMarksSameHeadings(doc, Stamp(doc));
  }

  lemma {:induction false} SameMarksSameHeadings(a: seq<Element>, b: seq<Element>)
    requires |a| == |b|
    requires forall j :: 0 <= j < |a| ==> a[j].dataHeading == b[j].dataHeading
    ensures HeadingIndices(a) == HeadingIndices(b)
    decreases |a|
  {
    if a != [] {
      SameMarksSameHeadings(a[..|a| - 1], b[..|b| - 1]);
    }
  }

  /** Extracting again from the stamped output assigns the same ids: stamping is idempotent. */
  lemma StampIdempotent(doc: seq<Element>)
    ensures Stamp(Stamp(doc)) == Stamp(doc)
  {
    var s := Stamp(doc);
    StampKeepsHeadings(doc);
    forall j | 0 <= j < |doc| ensures Stamp(s)[j] == s[j] {
      if doc[j].dataHeading {
        assert |s[..j]| == |doc[..j]|;
        SameMarksSameHeadings(s[..j], doc[..j]);
      }
    }
  }

  /**
   * Every entry's url is `#` followed by the id its heading carries in the
   * output, and no other HEADING shares that id. A non-heading element that
   * already had such an id keeps it (see `PreexistingIdKept`), so the anchor
   * is unique only among headings.
   */
  lemma HeadingIdsDistinct(number: string -> JsNumber, doc: seq<Element>, k: nat)
    requires k < |Titles(number, doc)|
    ensures Stamp(doc)[HeadingIndices(doc)[k]].id.Some?
    ensures Titles(number, doc)[k].url == "#" + Stamp(doc)[HeadingIndices(doc)[k]].id.value
    ensures forall l :: 0 <= l < |HeadingIndices(doc)| && l != k ==>
              Stamp(doc)[HeadingIndices(doc)[l]].id != Stamp(doc)[HeadingIndices(doc)[k]].id
  {
    var sel := HeadingIndices(doc);
    StampNumbersHeadings(doc, k);
    forall l | 0 <= l < |sel| && l != k
      ensures Stamp(doc)[sel[l]].id != Stamp(doc)[sel[k]].id
    {
      StampNumbersHeadings(doc, l);
      DecimalInjective(l, k);
    }
  }

  /** A non-heading element with `id="0"` before the first heading keeps it, so two elements end up with id `0`. */
  lemma PreexistingIdKept()
    ensures var doc := [Element("A", false, "x", Some("0")), Element("H1", true, "T", None)];
            Stamp(doc)[0].id == Stamp(doc)[1].id == Some("0")
  {
    var doc := [Element("A", false, "x", Some("0")), Element("H1", true, "T", None)];
    assert doc[..1][..0] == [];
    assert HeadingIndices(doc[..1]) == [];
  }
}
