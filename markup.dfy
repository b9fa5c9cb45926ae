/** The repeated fragments the renderer joins (`<tr>` rows, `<li>` items,
    section pairs) and readers that recover the input sequence from a joined
    fragment. A reader is the partner of its fragment: reading back what
    `map(...).join('')` produced yields exactly the input elements, one per
    fragment, in input order. Values are interpolated unescaped, so the round
    trips hold for text without `<`. */
module Markup {
  import opened Wrappers
  import opened JsText
  import opened Catalog

  const RowOpen := "<tr><th>"
  const RowMid := "</th><td>"
  const RowClose := "</td></tr>"
  const ItemOpen := "<li>"
  const ItemClose := "</li>"
  const SectionOpen := "<h3>"
  const SectionMid := "</h3><p>"
  const SectionClose := "</p>"

  /** `<tr><th>${label}</th><td>${value}</td></tr>` */
  function StatRow(s: Stat): string
  {
    RowOpen + s.caption + RowMid + s.value + RowClose
  }

  /** `<li>${text}</li>` */
  function ListItem(text: string): string
  {
    ItemOpen + text + ItemClose
  }

  /** `<h3>${section.title}</h3><p>${section.text}</p>` */
  function SectionPair(s: Section): string
  {
    SectionOpen + s.title + SectionMid + s.text + SectionClose
  }

  predicate PlainText(t: string)
  {
    '<' !in t
  }

  /** The longest prefix without a `<`, and what follows it. */
  function TakeText(s: string): (r: (string, string))
    ensures r.0 + r.1 == s
    ensures PlainText(r.0)
    ensures r.1 == "" || r.1[0] == '<'
    decreases |s|
  {
    if s == "" || s[0] == '<' then ("", s)
    else
      var (t, rest) := TakeText(s[1..]);
      ([s[0]] + t, rest)
  }

  lemma {:induction false} TakeTextOf(t: string, rest: string)
    requires PlainText(t) && rest != "" && rest[0] == '<'
    ensures TakeText(t + rest) == (t, rest)
    decreases |t|
  {
    if t == "" {
      assert t + rest == rest;
    } else {
      TakeTextOf(t[1..], rest);
      assert (t + rest)[1..] == t[1..] + rest;
      assert [t[0]] + t[1..] == t;
    }
  }

  /** Strips the literal `lit` from the front of `s`. */
  function Expect(s: string, lit: string): (r: Option<string>)
    ensures r.Some? <==> lit <= s
    ensures r.Some? ==> s == lit + r.value
  {
    if |lit| <= |s| && s[..|lit|] == lit then Some(s[|lit|..]) else None
  }

  /** Reads `open text close` from the front of `s`. */
  function ReadOne(s: string, open: string, close: string): (r: Option<(string, string)>)
    ensures r.Some? ==> |r.value.1| + |open| + |close| <= |s|
  {
    match Expect(s, open)
    case None => None
    case Some(s1) =>
      var (a, s2) := TakeText(s1);
      match Expect(s2, close)
      case None => None
      case Some(rest) => Some((a, rest))
  }

  /** Reads `open first mid second close` from the front of `s`. */
  function ReadPair(s: string, open: string, mid: string, close: string): (r: Option<(string, string, string)>)
    ensures r.Some? ==> |r.value.2| + |open| + |mid| + |close| <= |s|
  {
    match Expect(s, open)
    case None => None
    case Some(s1) =>
      var (a, s2) := TakeText(s1);
      match Expect(s2, mid)
      case None => None
      case Some(s3) =>
        var (b, s4) := TakeText(s3);
        match Expect(s4, close)
        case None => None
        case Some(rest) => Some((a, b, rest))
  }

  lemma ReadOneOf(open: string, a: string, close: string, rest: string)
    requires PlainText(a) && close != "" && close[0] == '<'
    ensures ReadOne(open + a + close + rest, open, close) == Some((a, rest))
  {
    var s := open + a + close + rest;
    assert s == open + (a + (close + rest));
    assert Expect(s, open) == Some(a + (close + rest));
    TakeTextOf(a, close + rest);
    assert Expect(close + rest, close) == Some(rest);
  }

  lemma ReadPairOf(open: string, a: string, mid: string, b: string, close: string, rest: string)
    requires PlainText(a) && PlainText(b)
    requires mid != "" && mid[0] == '<' && close != "" && close[0] == '<'
    ensures ReadPair(open + a + mid + b + close + rest, open, mid, close) == Some((a, b, rest))
  {
    var s := open + a + mid + b + close + rest;
    assert s == open + (a + (mid + (b + (close + rest))));
    assert Expect(s, open) == Some(a + (mid + (b + (close + rest))));
    TakeTextOf(a, mid + (b + (close + rest)));
    assert Expect(mid + (b + (close + rest)), mid) == Some(b + (close + rest));
    TakeTextOf(b, close + rest);
    assert Expect(close + rest, close) == Some(rest);
  }

  function ReadRows(s: string): Option<seq<Stat>>
    decreases |s|
  {
    if s == "" then Some([])
    else match ReadPair(s, RowOpen, RowMid, RowClose)
      case None => None
      case Some((a, b, rest)) =>
        match ReadRows(rest)
        case None => None
        case Some(more) => Some([Stat(a, b)] + more)
  }

  function ReadItems(s: string): Option<seq<string>>
    decreases |s|
  {
    if s == "" then Some([])
    else match ReadOne(s, ItemOpen, ItemClose)
      case None => None
      case Some((a, rest)) =>
        match ReadItems(rest)
        case None => None
        case Some(more) => Some([a] + more)
  }

  function ReadSections(s: string): Option<seq<Section>>
    decreases |s|
  {
    if s == "" then Some([])
    else match ReadPair(s, SectionOpen, SectionMid, SectionClose)
      case None => None
      case Some((a, b, rest)) =>
        match ReadSections(rest)
        case None => None
        case Some(more) => Some([Section(a, b)] + more)
  }

  /** A table body has one row per stat, in input order. */
  lemma {:induction false} RowsRoundTrip(rows: seq<Stat>)
    requires forall r :: r in rows ==> PlainText(r.caption) && PlainText(r.value)
    ensures ReadRows(MapJoin(rows, StatRow)) == Some(rows)
    decreases |rows|
  {
    if |rows| > 0 {
      var r, rest := rows[0], MapJoin(rows[1..], StatRow);
      assert rows[0] in rows;
      assert MapJoin(rows, StatRow) == RowOpen + r.caption + RowMid + r.value + RowClose + rest;
      ReadPairOf(RowOpen, r.caption, RowMid, r.value, RowClose, rest);
      RowsRoundTrip(rows[1..]);
      assert [rows[0]] + rows[1..] == rows;
    }
  }

  /** A list has one item per text, in input order. */
  lemma {:induction false} ItemsRoundTrip(texts: seq<string>)
    requires forall t :: t in texts ==> PlainText(t)
    ensures ReadItems(MapJoin(texts, ListItem)) == Some(texts)
    decreases |texts|
  {
    if |texts| > 0 {
      var t, rest := texts[0], MapJoin(texts[1..], ListItem);
      assert texts[0] in texts;
      assert MapJoin(texts, ListItem) == ItemOpen + t + ItemClose + rest;
      ReadOneOf(ItemOpen, t, ItemClose, rest);
      ItemsRoundTrip(texts[1..]);
      assert [texts[0]] + texts[1..] == texts;
    }
  }

  /** The section pairs are one heading-and-paragraph per section, in input order. */
  lemma {:induction false} SectionsRoundTrip(sections: seq<Section>)
    requires forall s :: s in sections ==> PlainText(s.title) && PlainText(s.text)
    ensures ReadSections(MapJoin(sections, SectionPair)) == Some(sections)
    decreases |sections|
  {
    if |sections| > 0 {
      var s, rest := sections[0], MapJoin(sections[1..], SectionPair);
      assert sections[0] in sections;
      assert MapJoin(sections, SectionPair) == SectionOpen + s.title + SectionMid + s.text + SectionClose + rest;
      ReadPairOf(SectionOpen, s.title, SectionMid, s.text, SectionClose, rest);
      SectionsRoundTrip(sections[1..]);
      assert [sections[0]] + sections[1..] == sections;
    }
  }
}
