/**
  Canonical printing of samples (Prometheus text exposition format 0.0.4, "Text
  format details": no blanks between tokens, backslash, quote and line feed
  escaped in label values) and the proof that the parser undoes it, as far as the
  label values are valid UTF-8.
 */
module Printing {
  import opened Outcomes
  import opened Ordering
  import opened Strings
  import opened Exposition
  import opened Utf8

  function EscapeChar(c: char): string {
    if c == '\\' then "\\\\" else if c == '"' then "\\\"" else if c == '\n' then "\\n" else [c]
  }

  function Escaped(v: string): string {
    if v == [] then [] else EscapeChar(v[0]) + Escaped(v[1..])
  }

  function Quote(v: string): string {
    "\"" + Escaped(v) + "\""
  }

  datatype Pair = Pair(key: string, value: string)

  function PrintPair(p: Pair): string {
    p.key + "=" + Quote(p.value)
  }

  function PrintPairs(pairs: seq<Pair>): seq<string> {
    if pairs == [] then [] else PrintPairs(pairs[..|pairs| - 1]) + [PrintPair(pairs[|pairs| - 1])]
  }

  function PrintExpr(name: string, pairs: seq<Pair>): string {
    if pairs == [] || PrintPairs(pairs) == [] then name else name + "{" + Join(PrintPairs(pairs), ',') + "}"
  }

  /** A sample as it is printed: labels in any order, the value as text, a timestamp or none. */
  datatype Printed = Printed(name: string, pairs: seq<Pair>, value: string, timestamp: Option<string>)

  function PrintLine(p: Printed): string {
    PrintExpr(p.name, p.pairs) + " " + p.value + (if p.timestamp.Some? then " " + p.timestamp.value else "")
  }

  /** Not empty, and without a space anywhere. */
  predicate Word(s: string) {
    s != [] && Spaceless(s)
  }

  predicate Spaceless(s: string) {
    forall i :: 0 <= i < |s| ==> SpaceAhead(s[i..]) == 0
  }

  ghost predicate Printable(p: Printed) {
    && IsMetricName(p.name) && Word(p.value)
    && (p.timestamp.Some? ==> IsInt64(p.timestamp.value))
    && LabelKeys(p.pairs) && Different(p.pairs)
  }

  ghost predicate LabelKeys(pairs: seq<Pair>) {
    forall i :: 0 <= i < |pairs| ==> IsLabelKey(pairs[i].key)
  }

  ghost predicate Different(pairs: seq<Pair>) {
    forall i, j :: 0 <= i < j < |pairs| ==> pairs[i].key != pairs[j].key
  }

  function MapOf(pairs: seq<Pair>): Labels {
    if pairs == [] then map[]
    else MapOf(pairs[..|pairs| - 1])[pairs[|pairs| - 1].key := pairs[|pairs| - 1].value]
  }

  /** The labels with every byte that is not UTF-8 replaced. */
  function ScrubAll(labels: Labels): Labels {
    map k | k in labels :: Scrub(labels[k])
  }

  ghost predicate AllValid(labels: Labels) {
    forall k :: k in labels ==> Valid(labels[k])
  }

  lemma ScrubAllKeeps(labels: Labels)
    ensures ScrubAll(labels) == labels <==> AllValid(labels)
  {
    forall k | k in labels ensures Scrub(labels[k]) == labels[k] <==> Valid(labels[k]) {
      ScrubKeepsValid(labels[k]);
    }
    hide Scrub, Valid;
    assert ScrubAll(labels) == labels ==> forall k :: k in labels ==> ScrubAll(labels)[k] == Scrub(labels[k]);
  }

  // ---------------------------------------------------------------------- scanning

  /** Reading `s` meets no separator. */
  predicate Quiet(sc: Scan, s: string, sep: char -> bool)
    decreases |s|
  {
    s == [] || (!Separates(sc, s[0], sep) && Quiet(Step(sc, s[0]), s[1..], sep))
  }

  function After(sc: Scan, s: string): Scan
    decreases |s|
  {
    if s == [] then sc else After(Step(sc, s[0]), s[1..])
  }

  lemma {:induction false} QuietJoin(sc: Scan, a: string, b: string, sep: char -> bool)
    requires Quiet(sc, a, sep) && Quiet(After(sc, a), b, sep)
    ensures Quiet(sc, a + b, sep) && After(sc, a + b) == After(After(sc, a), b)
    decreases |a|
  {
    if a == [] {
      assert a + b == b;
    } else {
      assert (a + b)[1..] == a[1..] + b;
      QuietJoin(Step(sc, a[0]), a[1..], b, sep);
    }
  }

  /** Plain text outside quotes. */
  lemma {:induction false} PlainScan(s: string, sep: char -> bool)
    requires forall i :: 0 <= i < |s| ==> s[i] != '"' && !sep(s[i])
    ensures Quiet(OPEN, s, sep) && After(OPEN, s) == OPEN
  {
    if s != [] { PlainScan(s[1..], sep); }
  }

  lemma EscapedCharScan(c: char, sep: char -> bool)
    ensures Quiet(QUOTED, EscapeChar(c), sep) && After(QUOTED, EscapeChar(c)) == QUOTED
  {
    var e := EscapeChar(c);
    if |e| == 2 {
      assert e[1..] == [e[1]] && e[1..][1..] == [];
      assert After(Step(QUOTED, e[0]), e[1..]) == After(Step(Step(QUOTED, e[0]), e[1]), []);
    } else {
      assert e[1..] == [];
    }
  }

  lemma {:induction false} EscapedScan(v: string, sep: char -> bool)
    ensures Quiet(QUOTED, Escaped(v), sep) && After(QUOTED, Escaped(v)) == QUOTED
  {
    if v != [] {
      EscapedCharScan(v[0], sep);
      EscapedScan(v[1..], sep);
      QuietJoin(QUOTED, EscapeChar(v[0]), Escaped(v[1..]), sep);
    }
  }

  /** A quoted value is passed over whole, whatever is in it. */
  lemma QuotedScan(v: string, sep: char -> bool)
    ensures Quiet(OPEN, Quote(v), sep) && After(OPEN, Quote(v)) == OPEN
  {
    EscapedScan(v, sep);
    var q := "\"";
    assert q[1..] == [];
    assert After(OPEN, q) == QUOTED && After(QUOTED, q) == OPEN;
    QuietJoin(OPEN, q, Escaped(v), sep);
    QuietJoin(OPEN, q + Escaped(v), q, sep);
  }

  lemma {:induction false} BreakAfter(sc: Scan, a: string, rest: string)
    requires Quiet(sc, a, Blank)
    ensures BreakAt(a + rest, sc)
         == (var r := BreakAt(rest, After(sc, a)); if r < 0 then -1 else r + |a|)
    decreases |a|
  {
    if a == [] {
      assert a + rest == rest;
    } else {
      assert (a + rest)[1..] == a[1..] + rest;
      BreakAfter(Step(sc, a[0]), a[1..], rest);
    }
  }

  lemma {:induction false} SplitAfter(pending: string, sc: Scan, a: string, rest: string)
    requires Quiet(sc, a, Comma)
    ensures SplitPairs(pending, a + rest, sc) == SplitPairs(pending + a, rest, After(sc, a))
    decreases |a|
  {
    if a == [] {
      assert a + rest == rest && pending + a == pending;
    } else {
      assert (a + rest)[1..] == a[1..] + rest;
      assert pending + [a[0]] + a[1..] == pending + a;
      SplitAfter(pending + [a[0]], Step(sc, a[0]), a[1..], rest);
    }
  }

  // ------------------------------------------------------------------------ values

  /** The first `k` bytes agree as long as they are not ASCII. */
  predicate Agree(v: string, t: string, k: nat) {
    k == 0
    || if v != [] && v[0] >= '\U{80}' then t != [] && t[0] == v[0] && Agree(v[1..], t[1..], k - 1)
       else t == [] || t[0] < '\U{80}'
  }

  lemma AgreeRune(v: string, t: string)
    requires v != [] && v[0] >= '\U{80}' && Agree(v, t, 4)
    ensures RuneLength(t) == RuneLength(v)
  {
    assert Agree(v[1..], t[1..], 3) && t[0] == v[0];
    if |v| > 1 && v[1] >= '\U{80}' {
      assert Agree(v[1..][1..], t[1..][1..], 2) && t[1] == v[1];
      assert v[1..][1..] == v[2..] && t[1..][1..] == t[2..];
      if |v| > 2 && v[2] >= '\U{80}' {
        assert Agree(v[2..][1..], t[2..][1..], 1) && t[2] == v[2];
        assert v[2..][1..] == v[3..] && t[2..][1..] == t[3..];
      }
    }
  }

  /** The text inside the quotes, and the closing quote. */
  function Body(v: string): string {
    Escaped(v) + "\""
  }

  lemma BodyMore(v: string)
    requires v != []
    ensures Body(v) == EscapeChar(v[0]) + Body(v[1..])
  {
  }

  lemma {:induction false} BodyAgrees(v: string, k: nat)
    ensures Agree(v, Body(v), k)
  {
    if k > 0 && v != [] {
      BodyMore(v);
      hide Body;
      if v[0] >= '\U{80}' {
        assert Body(v)[1..] == Body(v[1..]);
        BodyAgrees(v[1..], k - 1);
      }
    }
  }

  /** Bytes beyond ASCII are not escaped. */
  lemma {:induction false} BodySkips(v: string, n: nat)
    requires n <= |v| && forall i :: 0 <= i < n ==> v[i] >= '\U{80}'
    ensures Body(v) == v[..n] + Body(v[n..])
    decreases n
  {
    hide Body;
    if n > 0 {
      BodyMore(v);
      BodySkips(v[1..], n - 1);
      assert v[1..][n - 1..] == v[n..] && v[..n] == [v[0]] + v[1..][..n - 1];
    } else {
      assert v[n..] == v;
    }
  }

  lemma RuneBytes(v: string)
    requires v != [] && v[0] >= '\U{80}'
    ensures forall i :: 0 <= i < RuneLength(v) ==> v[i] >= '\U{80}'
  {
  }

  lemma {:induction false} UnquoteEscaped(v: string)
    ensures UnquoteBody(Body(v)) == Some(Scrub(v))
    decreases |v|
  {
    if v == [] {
      assert Body(v) == "\"";
    } else if v[0] < '\U{80}' {
      UnquoteEscaped(v[1..]);
      BodyMore(v);
      AsciiUnquotes(v[0], Body(v[1..]));
      assert v[..1] == [v[0]];
    } else {
      var n := RuneLength(v);
      var m := if n > 0 then n else 1;
      UnquoteEscaped(v[m..]);
      RuneBytes(v);
      BodySkips(v, m);
      BodyAgrees(v, 4);
      AgreeRune(v, Body(v));
      hide RuneLength, Body, Agree;
      assert Body(v)[..m] == v[..m] && Body(v)[m..] == Body(v[m..]) && Body(v)[0] == v[0];
    }
  }

  lemma AsciiUnquotes(c: char, rest: string)
    requires c < '\U{80}'
    ensures UnquoteBody(EscapeChar(c) + rest) == Join2([c], UnquoteBody(rest))
  {
    var e := EscapeChar(c);
    var s := e + rest;
    assert s[|e|..] == rest && s[..|e|] == e && s[0] == e[0];
    if |e| == 2 {
      assert s[1] == e[1] && ReadEscape(s) == Escape(Some([c]), 2);
    } else {
      assert RuneLength(s) == 1;
    }
  }

  /** Quoting and unquoting replaces what is not UTF-8, and changes nothing else. */
  lemma UnquoteQuote(v: string)
    ensures Unquote(Quote(v)) == Some(Scrub(v))
    ensures Unquote(Quote(v)) == Some(v) <==> Valid(v)
  {
    UnquoteEscaped(v);
    ScrubKeepsValid(v);
    assert Quote(v)[1..] == Body(v);
  }

  lemma {:induction false} FirstAt(a: string, c: char, rest: string)
    requires c !in a
    ensures IndexOf(a + [c] + rest, c) == |a|
  {
    var s := a + [c] + rest;
    if a != [] {
      assert s[1..] == a[1..] + [c] + rest;
      FirstAt(a[1..], c, rest);
    }
  }

  lemma NameChars(s: string, colon: bool)
    requires IsName(s, colon)
    ensures forall i :: 0 <= i < |s| ==>
              s[i] != '"' && Solid(s[i]) && !Blank(s[i]) && s[i] != ',' && s[i] != '=' && s[i] != '{' && s[i] != '}'
              && s[i] != '#'
  {
  }

  /** A printed pair scans over in one go, is not trimmed, and reads back. */
  lemma PairReads(p: Pair)
    requires IsLabelKey(p.key)
    ensures var s := PrintPair(p);
            && Quiet(OPEN, s, Comma) && After(OPEN, s) == OPEN
            && Quiet(OPEN, s, Blank)
            && s != [] && TrimSpace(s) == s && Solid(s[0]) && s[|s| - 1] == '"'
            && ParsePair(s) == Some((p.key, Scrub(p.value)))
  {
    NameChars(p.key, false);
    var head, value := p.key + "=", Quote(p.value);
    PlainScan(head, Comma);
    PlainScan(head, Blank);
    QuotedScan(p.value, Comma);
    QuotedScan(p.value, Blank);
    QuietJoin(OPEN, head, value, Comma);
    QuietJoin(OPEN, head, value, Blank);
    hide Quiet, After;
    PairParses(p);
  }

  lemma PairParses(p: Pair)
    requires IsLabelKey(p.key)
    ensures var s := PrintPair(p);
            s != [] && TrimSpace(s) == s && Solid(s[0]) && s[|s| - 1] == '"' && ParsePair(s) == Some((p.key, Scrub(p.value)))
  {
    NameChars(p.key, false);
    var s, value := PrintPair(p), Quote(p.value);
    TrimKeeps(s);
    FirstAt(p.key, '=', value);
    assert s == p.key + ['='] + value;
    assert s[..|p.key|] == p.key && s[|p.key| + 1..] == value;
    TrimKeeps(p.key);
    TrimKeeps(value);
    UnquoteQuote(p.value);
  }

  lemma {:induction false} PrintPairsAt(pairs: seq<Pair>)
    ensures |PrintPairs(pairs)| == |pairs|
    ensures forall i :: 0 <= i < |pairs| ==> PrintPairs(pairs)[i] == PrintPair(pairs[i])
  {
    if pairs != [] {
      var n := |pairs| - 1;
      PrintPairsAt(pairs[..n]);
      assert forall i :: 0 <= i < n ==> pairs[..n][i] == pairs[i];
    }
  }

  /** A list of texts that each scan over without a comma. */
  ghost predicate Parts(parts: seq<string>) {
    forall i :: 0 <= i < |parts| ==>
      && Quiet(OPEN, parts[i], Comma) && After(OPEN, parts[i]) == OPEN
      && parts[i] != "" && TrimSpace(parts[i]) == parts[i]
  }

  lemma {:induction false} JoinedSplits(parts: seq<string>)
    requires parts != [] && Parts(parts)
    ensures SplitPairs("", Join(parts, ','), OPEN) == Some(parts)
  {
    hide Quiet, After, SplitPairs, TrimSpace;
    var first := parts[0];
    if |parts| == 1 {
      assert parts == [first];
      PartAlone(first);
    } else {
      var rest := Join(parts[1..], ',');
      JoinedSplits(parts[1..]);
      assert Join(parts, ',') == first + ("," + rest);
      PartSplits(first, rest);
      assert [first] + parts[1..] == parts;
    }
  }

  lemma PartAlone(part: string)
    requires Quiet(OPEN, part, Comma) && After(OPEN, part) == OPEN && part != "" && TrimSpace(part) == part
    ensures SplitPairs("", part, OPEN) == Some([part])
  {
    assert part + "" == part && "" + part == part;
    SplitAfter("", OPEN, part, "");
    hide Quiet, After, TrimSpace;
  }

  lemma PartSplits(first: string, rest: string)
    requires Quiet(OPEN, first, Comma) && After(OPEN, first) == OPEN && first != "" && TrimSpace(first) == first
    ensures SplitPairs("", first + ("," + rest), OPEN) == Prepend([first], SplitPairs("", rest, OPEN))
  {
    assert ("," + rest)[1..] == rest && "" + first == first;
    SplitAfter("", OPEN, first, "," + rest);
    hide Quiet, After;
  }

  lemma {:induction false} MapKeys(pairs: seq<Pair>)
    ensures forall k :: k in MapOf(pairs) <==> exists i :: 0 <= i < |pairs| && pairs[i].key == k
  {
    if pairs != [] {
      var n := |pairs| - 1;
      MapKeys(pairs[..n]);
      assert forall i :: 0 <= i < n ==> pairs[..n][i] == pairs[i];
    }
  }

  lemma KeyIsNew(pairs: seq<Pair>)
    requires pairs != [] && Different(pairs)
    ensures pairs[|pairs| - 1].key !in MapOf(pairs[..|pairs| - 1]) && Different(pairs[..|pairs| - 1])
  {
    MapKeys(pairs[..|pairs| - 1]);
    hide MapOf;
  }

  /** One more pair is read on top of those before it. */
  lemma LabelsMore(parts: seq<string>, last: string)
    ensures LabelsOf(parts + [last])
         == match (LabelsOf(parts), ParsePair(last))
            case (Some(labels), Some((key, value))) => (if key in labels then None else Some(labels[key := value]))
            case _ => None
  {
    hide ParsePair;
    assert (parts + [last])[..|parts|] == parts;
  }

  lemma {:induction false} LabelsRead(pairs: seq<Pair>)
    requires LabelKeys(pairs) && Different(pairs)
    ensures LabelsOf(PrintPairs(pairs)) == Some(ScrubAll(MapOf(pairs)))
  {
    hide ParsePair, PrintPair, LabelsOf, Different, MapOf, ScrubAll, Scrub, LabelKeys;
    if pairs == [] {
      NoLabels();
      NoPairs();
    } else {
      var n := |pairs| - 1;
      FrontPairs(pairs);
      KeyIsNew(pairs);
      LabelsRead(pairs[..n]);
      ScrubMore(pairs);
      PairParses(pairs[n]);
      LabelsMore(PrintPairs(pairs[..n]), PrintPair(pairs[n]));
    }
  }

  lemma NoPairs()
    ensures LabelsOf([]) == Some(map[])
  {
  }

  lemma NoLabels()
    ensures ScrubAll(MapOf([])) == map[]
  {
  }

  lemma FrontPairs(pairs: seq<Pair>)
    requires pairs != [] && LabelKeys(pairs) && Different(pairs)
    ensures LabelKeys(pairs[..|pairs| - 1]) && Different(pairs[..|pairs| - 1]) && IsLabelKey(pairs[|pairs| - 1].key)
  {
  }

  lemma ScrubMore(pairs: seq<Pair>)
    requires pairs != []
    ensures var front, last := MapOf(pairs[..|pairs| - 1]), pairs[|pairs| - 1];
            && ScrubAll(MapOf(pairs)) == ScrubAll(front)[last.key := Scrub(last.value)]
            && (last.key in ScrubAll(front) <==> last.key in front)
  {
  }

  /** Scanning and splitting the joined pairs. */
  lemma PairsPrinted(pairs: seq<Pair>)
    requires LabelKeys(pairs)
    ensures Parts(PrintPairs(pairs))
  {
    PrintPairsAt(pairs);
    hide Quiet, After, PrintPairs, PrintPair;
    forall i | 0 <= i < |pairs|
      ensures Quiet(OPEN, PrintPair(pairs[i]), Comma) && After(OPEN, PrintPair(pairs[i])) == OPEN
      ensures PrintPair(pairs[i]) != "" && TrimSpace(PrintPair(pairs[i])) == PrintPair(pairs[i])
    {
      PairReads(pairs[i]);
    }
  }

  // ------------------------------------------------------------------- expressions

  lemma {:induction false} JoinedQuiet(parts: seq<string>)
    requires parts != []
    requires forall i :: 0 <= i < |parts| ==> Quiet(OPEN, parts[i], Blank) && After(OPEN, parts[i]) == OPEN
    ensures Quiet(OPEN, Join(parts, ','), Blank) && After(OPEN, Join(parts, ',')) == OPEN
  {
    if |parts| > 1 {
      JoinedQuiet(parts[1..]);
      PlainScan(",", Blank);
      QuietJoin(OPEN, parts[0], ",", Blank);
      QuietJoin(OPEN, parts[0] + ",", Join(parts[1..], ','), Blank);
    }
  }

  /** No part is empty, none starts or ends with a blank: neither does their join. */
  lemma {:induction false} JoinedTrim(parts: seq<string>)
    requires parts != []
    requires forall i :: 0 <= i < |parts| ==> parts[i] != "" && Solid(parts[i][0]) && Solid(parts[i][|parts[i]| - 1])
    ensures var s := Join(parts, ','); s != [] && Solid(s[0]) && Solid(s[|s| - 1])
  {
    if |parts| > 1 { JoinedTrim(parts[1..]); }
  }

  /** What the joined pairs are to the scanners. */
  lemma PairsFacts(pairs: seq<Pair>)
    requires pairs != [] && LabelKeys(pairs)
    ensures PrintPairs(pairs) != []
    ensures var s := Join(PrintPairs(pairs), ',');
            && s != [] && Solid(s[0]) && Solid(s[|s| - 1])
            && Quiet(OPEN, s, Blank) && After(OPEN, s) == OPEN
  {
    PrintPairsAt(pairs);
    hide Quiet, After, PrintPairs, PrintPair, Solid;
    forall i | 0 <= i < |pairs|
      ensures var s := PrintPair(pairs[i]);
              && Quiet(OPEN, s, Blank) && After(OPEN, s) == OPEN
              && s != "" && Solid(s[0]) && Solid(s[|s| - 1])
    {
      PairReads(pairs[i]);
      QuoteSolid();
    }
    JoinedQuiet(PrintPairs(pairs));
    JoinedTrim(PrintPairs(pairs));
  }

  lemma QuoteSolid()
    ensures Solid('"')
  {
  }

  lemma LabelsPrinted(pairs: seq<Pair>)
    requires pairs != [] && LabelKeys(pairs) && Different(pairs)
    ensures PrintPairs(pairs) != [] && ParseLabels(Join(PrintPairs(pairs), ',')) == Some(ScrubAll(MapOf(pairs)))
  {
    hide Parts, Quiet, After, PrintPairs, SplitPairs, LabelsOf, TrimSpace, IsName, MapOf, Join, ParseLabels, Solid;
    hide LabelKeys, Different;
    PairsFacts(pairs);
    PairsPrinted(pairs);
    LabelsRead(pairs);
    JoinedReads(PrintPairs(pairs));
  }

  lemma JoinedReads(parts: seq<string>)
    requires parts != [] && Parts(parts)
    requires var s := Join(parts, ','); s != [] && Solid(s[0]) && Solid(s[|s| - 1])
    ensures ParseLabels(Join(parts, ',')) == LabelsOf(parts)
  {
    hide Parts, SplitPairs, LabelsOf, TrimSpace, Join;
    TrimKeeps(Join(parts, ','));
    JoinedSplits(parts);
  }

  lemma ExprReads(name: string, pairs: seq<Pair>)
    requires IsMetricName(name) && LabelKeys(pairs) && Different(pairs)
    ensures ParseExpr(PrintExpr(name, pairs)) == Some((name, ScrubAll(MapOf(pairs))))
  {
    hide PrintPairs, ParseLabels, IsName, Join, MapOf;
    NameChars(name, true);
    if pairs == [] {
      assert ScrubAll(MapOf(pairs)) == map[] by { NoLabels(); }
    } else {
      LabelsPrinted(pairs);
      BracedReads(name, Join(PrintPairs(pairs), ','));
    }
  }

  lemma BracedReads(name: string, raw: string)
    requires IsMetricName(name) && '{' !in name && ParseLabels(raw).Some?
    ensures ParseExpr(name + "{" + raw + "}") == Some((name, ParseLabels(raw).value))
  {
    hide ParseLabels, IsName;
    var expr := name + "{" + raw + "}";
    assert expr == name + ['{'] + (raw + "}");
    FirstAt(name, '{', raw + "}");
    assert expr[..|name|] == name && expr[|name| + 1..|expr| - 1] == raw;
  }

  /** The expression has no blank outside quotes, and none at its ends. */
  lemma ExprScans(name: string, pairs: seq<Pair>)
    requires IsMetricName(name) && LabelKeys(pairs)
    ensures var expr := PrintExpr(name, pairs);
            && Quiet(OPEN, expr, Blank) && After(OPEN, expr) == OPEN
            && expr != [] && Solid(expr[0]) && expr[0] != '#' && Solid(expr[|expr| - 1])
  {
    NameChars(name, true);
    PlainScan(name, Blank);
    if pairs != [] {
      PairsFacts(pairs);
      var joined := Join(PrintPairs(pairs), ',');
      PlainScan(name + "{", Blank);
      PlainScan("}", Blank);
      QuietJoin(OPEN, name + "{", joined, Blank);
      QuietJoin(OPEN, name + "{" + joined, "}", Blank);
      hide Quiet, After, PrintPairs;
    }
  }

  // ------------------------------------------------------------------------- lines

  /** A word is met as one, before a space or at the end. */
  lemma WordAhead(w: string, rest: string)
    requires Spaceless(w) && (rest == [] || rest[0] == ' ')
    ensures forall i :: 0 <= i < |w| ==> SpaceAhead((w + rest)[i..]) == 0
  {
    forall i | 0 <= i < |w| ensures SpaceAhead((w + rest)[i..]) == 0 {
      assert (w + rest)[i..] == w[i..] + rest && SpaceAhead(w[i..]) == 0;
    }
  }

  lemma WordEnds(w: string)
    requires Word(w)
    ensures var m := |w|;
            && !AsciiSpace(w[m - 1])
            && (m >= 2 ==> !TwoByteSpace(w[m - 2], w[m - 1]))
            && (m >= 3 ==> !ThreeByteSpace(w[m - 3], w[m - 2], w[m - 1]))
  {
    var m := |w|;
    assert SpaceAhead(w[m - 1..]) == 0;
    if m >= 2 { assert SpaceAhead(w[m - 2..]) == 0; }
    if m >= 3 { assert SpaceAhead(w[m - 3..]) == 0; }
  }

  lemma WordBehind(a: string, w: string)
    requires Word(w) && (a == [] || a[|a| - 1] == ' ')
    ensures SpaceBehind(a + w) == 0
  {
    WordEnds(w);
    hide Word, AsciiSpace;
    var t, m := a + w, |w|;
    assert t[|t| - 1] == w[m - 1];
    assert |t| >= 2 ==> t[|t| - 2] == if m >= 2 then w[m - 2] else ' ';
    assert |t| >= 3 && m >= 2 ==> t[|t| - 3] == if m >= 3 then w[m - 3] else ' ';
  }

  lemma {:induction false} WordAlone(w: string, rest: string)
    requires Spaceless(w) && (rest == [] || rest[0] == ' ')
    ensures WordLength(w + rest) == |w|
  {
    var s := w + rest;
    if w == [] {
      assert s == rest;
    } else {
      WordAhead(w, rest);
      assert s[0..] == s && s[1..] == w[1..] + rest;
      assert forall i :: 0 <= i < |w| - 1 ==> w[1..][i..] == w[i + 1..];
      WordAlone(w[1..], rest);
    }
  }

  /** The first word of a text that starts with one. */
  lemma FieldsStart(w: string, rest: string)
    requires Word(w) && (rest == [] || rest[0] == ' ')
    ensures TrimLeft(w + rest) == w + rest && Fields(w + rest) == [w] + Fields(rest)
  {
    var s := w + rest;
    WordAhead(w, rest);
    WordAlone(w, rest);
    assert s[0..] == s && SpaceAhead(s[0..]) == 0;
    assert s[..|w|] == w && s[|w|..] == rest;
  }

  lemma OneField(w: string)
    requires Word(w)
    ensures Fields(w) == [w]
  {
    FieldsStart(w, "");
    assert w + "" == w && Fields("") == [];
  }

  lemma BlankSkipped(s: string)
    ensures TrimLeft(" " + s) == TrimLeft(s) && Fields(" " + s) == Fields(s)
  {
    assert (" " + s)[1..] == s;
    assert TrimLeft(" " + s) == TrimLeft(s);
  }

  lemma TwoFields(w: string, v: string)
    requires Word(w) && Word(v)
    ensures Fields(w + " " + v) == [w, v]
  {
    FieldsStart(w, " " + v);
    BlankSkipped(v);
    OneField(v);
    assert w + " " + v == w + (" " + v);
  }

  /** The text of a number is a word. */
  lemma NumberIsWord(s: string)
    requires IsInt64(s)
    ensures Word(s)
  {
    forall i | 0 <= i < |s| ensures SpaceAhead(s[i..]) == 0 {
      assert s[i] == '+' || s[i] == '-' || IsDigit(s[i]) by {
        if s[0] == '+' || s[0] == '-' { assert i > 0 ==> s[i] == s[1..][i - 1]; }
      }
    }
  }

  /** What follows the expression on the line. */
  function Tail(p: Printed): string {
    p.value + (if p.timestamp.Some? then " " + p.timestamp.value else "")
  }

  lemma TailEnds(p: Printed, a: string)
    requires Printable(p) && a != [] && a[|a| - 1] == ' '
    ensures SpaceBehind(a + Tail(p)) == 0 && SpaceBehind(Tail(p)) == 0
  {
    hide Word, SpaceBehind, IsInt64, IsName, LabelKeys, Different;
    if p.timestamp.Some? {
      var w := p.timestamp.value;
      NumberIsWord(w);
      WordBehind(a + p.value + " ", w);
      WordBehind(p.value + " ", w);
      assert a + Tail(p) == a + p.value + " " + w && Tail(p) == p.value + " " + w;
    } else {
      WordBehind(a, p.value);
      WordBehind("", p.value);
      assert "" + p.value == p.value && Tail(p) == p.value;
    }
  }

  lemma TailTrims(p: Printed)
    requires Printable(p)
    ensures Tail(p) != [] && TrimSpace(" " + Tail(p)) == Tail(p)
  {
    var rest := if p.timestamp.Some? then " " + p.timestamp.value else "";
    TailEnds(p, " ");
    FieldsStart(p.value, rest);
    BlankSkipped(Tail(p));
    hide Word, SpaceBehind, IsInt64, Fields;
    assert p.value + rest == Tail(p);
  }

  lemma LineSplits(p: Printed)
    requires Printable(p)
    ensures SplitSampleLine(PrintLine(p)) == Some((PrintExpr(p.name, p.pairs), p.value))
  {
    hide PrintExpr, IsInt64, Quiet, After, Fields, TrimSpace, IsName, Word, Solid, SplitSampleLine;
    var expr := PrintExpr(p.name, p.pairs);
    ExprScans(p.name, p.pairs);
    TrimKeeps(expr);
    TailTrims(p);
    if p.timestamp.Some? {
      NumberIsWord(p.timestamp.value);
      TwoFields(p.value, p.timestamp.value);
      assert Tail(p) == p.value + " " + p.timestamp.value;
    } else {
      OneField(p.value);
      assert Tail(p) == p.value;
    }
    assert PrintLine(p) == expr + (" " + Tail(p));
    TextSplits(expr, Tail(p), Fields(Tail(p)));
  }

  lemma TextSplits(expr: string, tail: string, fields: seq<string>)
    requires Quiet(OPEN, expr, Blank) && After(OPEN, expr) == OPEN && expr != "" && TrimSpace(expr) == expr
    requires tail != "" && TrimSpace(" " + tail) == tail && Fields(tail) == fields
    requires |fields| == 1 || (|fields| == 2 && IsInt64(fields[1]))
    ensures SplitSampleLine(expr + (" " + tail)) == Some((expr, fields[0]))
  {
    var rest := " " + tail;
    BreakAfter(OPEN, expr, rest);
    assert BreakAt(rest, OPEN) == 0;
    hide Quiet, After, BreakAt, Fields, TrimSpace, IsInt64;
    assert (expr + rest)[..|expr|] == expr && (expr + rest)[|expr|..] == rest;
  }

  /** Reading a printed line gives back its name and its labels, scrubbed; so exactly when they are valid, the labels themselves. */
  lemma LineReads(p: Printed, float: string -> Option<real>, value: real)
    requires Printable(p) && float(p.value) == Some(value)
    ensures ParseLine(PrintLine(p), float) == Some(Sample(p.name, ScrubAll(MapOf(p.pairs)), value))
    ensures ParseLine(PrintLine(p), float) == Some(Sample(p.name, MapOf(p.pairs), value)) <==> AllValid(MapOf(p.pairs))
  {
    LineSplits(p);
    ExprReads(p.name, p.pairs);
    ScrubAllKeeps(MapOf(p.pairs));
    hide SplitSampleLine, PrintLine, PrintExpr, ParseExpr, ScrubAll;
  }

  lemma {:induction false} EscapedInjective(v: string, w: string)
    requires Escaped(v) == Escaped(w)
    ensures v == w
  {
    if v == [] || w == [] {
    } else {
      var a, b := EscapeChar(v[0]), EscapeChar(w[0]);
      assert Escaped(v)[0] == a[0] && Escaped(w)[0] == b[0];
      if |a| == 2 && |b| == 2 { assert Escaped(v)[1] == a[1] && Escaped(w)[1] == b[1]; }
      assert Escaped(v)[|a|..] == Escaped(v[1..]) && Escaped(w)[|b|..] == Escaped(w[1..]);
      EscapedInjective(v[1..], w[1..]);
      assert v == [v[0]] + v[1..] && w == [w[0]] + w[1..];
    }
  }

  lemma PairInjective(p: Pair, q: Pair)
    requires IsLabelKey(p.key) && IsLabelKey(q.key) && PrintPair(p) == PrintPair(q)
    ensures p == q
  {
    hide Escaped;
    NameChars(p.key, false);
    NameChars(q.key, false);
    hide IsName;
    var s := PrintPair(p);
    assert s == p.key + ['='] + Quote(p.value) && s == q.key + ['='] + Quote(q.value);
    FirstAt(p.key, '=', Quote(p.value));
    FirstAt(q.key, '=', Quote(q.value));
    assert p.key == s[..|p.key|] == q.key;
    assert Escaped(p.value) == s[|p.key| + 2..|s| - 1] == Escaped(q.value);
    EscapedInjective(p.value, q.value);
  }

  lemma ExprParts(name: string, pairs: seq<Pair>)
    requires IsMetricName(name) && LabelKeys(pairs)
    ensures var s := PrintExpr(name, pairs);
            && (pairs == [] ==> s == name && '{' !in s)
            && (pairs != [] ==>
                  && PrintPairs(pairs) != [] && IndexOf(s, '{') == |name| < |s| - 1
                  && s[..|name|] == name && s[|name| + 1..|s| - 1] == Join(PrintPairs(pairs), ','))
  {
    NameChars(name, true);
    PrintPairsAt(pairs);
    hide PrintPair, IsName, PrintPairs, LabelKeys, Join;
    if pairs != [] {
      var rest := Join(PrintPairs(pairs), ',') + "}";
      assert PrintExpr(name, pairs) == name + ['{'] + rest;
      FirstAt(name, '{', rest);
    }
  }

  lemma ExprInjective(name: string, pairs: seq<Pair>, other: string, others: seq<Pair>)
    requires IsMetricName(name) && LabelKeys(pairs) && IsMetricName(other) && LabelKeys(others)
    requires PrintExpr(name, pairs) == PrintExpr(other, others)
    ensures name == other && pairs == others
  {
    hide PrintExpr, PrintPairs, IsName, LabelKeys, Join, IndexOf;
    ExprParts(name, pairs);
    ExprParts(other, others);
    if pairs != [] { JoinedInjective(pairs, others); }
  }

  lemma JoinedInjective(pairs: seq<Pair>, others: seq<Pair>)
    requires pairs != [] && LabelKeys(pairs) && others != [] && LabelKeys(others)
    requires PrintPairs(pairs) != [] && PrintPairs(others) != []
    requires Join(PrintPairs(pairs), ',') == Join(PrintPairs(others), ',')
    ensures pairs == others
  {
    PairsPrinted(pairs);
    PairsPrinted(others);
    JoinedSplits(PrintPairs(pairs));
    JoinedSplits(PrintPairs(others));
    PrintPairsAt(pairs);
    PrintPairsAt(others);
    hide PrintPair, PrintPairs, Join, SplitPairs, Parts, IsName;
    forall i | 0 <= i < |pairs| ensures pairs[i] == others[i] {
      PairInjective(pairs[i], others[i]);
    }
  }

  /** Different samples never print alike, valid UTF-8 or not. */
  lemma PrintingInjective(p: Printed, q: Printed)
    requires Printable(p) && Printable(q) && PrintLine(p) == PrintLine(q)
    ensures p == q
  {
    LineSplits(p);
    LineSplits(q);
    ExprInjective(p.name, p.pairs, q.name, q.pairs);
    hide SplitSampleLine, PrintExpr;
    var head := PrintExpr(p.name, p.pairs) + " " + p.value;
    assert PrintLine(p)[|head|..] == PrintLine(q)[|head|..];
    if p.timestamp.Some? && q.timestamp.Some? {
      assert p.timestamp.value == PrintLine(p)[|head| + 1..] == q.timestamp.value;
    }
  }

  // ----------------------------------------------------------------- normal forms

  function PairsOf(keys: seq<string>, labels: Labels): seq<Pair> {
    if keys == [] then []
    else
      var n := |keys| - 1;
      PairsOf(keys[..n], labels) + [Pair(keys[n], if keys[n] in labels then labels[keys[n]] else "")]
  }

  lemma {:induction false} PairsOfAt(keys: seq<string>, labels: Labels)
    requires forall i :: 0 <= i < |keys| ==> keys[i] in labels
    ensures |PairsOf(keys, labels)| == |keys|
    ensures forall i :: 0 <= i < |keys| ==> PairsOf(keys, labels)[i] == Pair(keys[i], labels[keys[i]])
  {
    if keys != [] {
      var n := |keys| - 1;
      PairsOfAt(keys[..n], labels);
      assert forall i :: 0 <= i < n ==> keys[..n][i] == keys[i];
    }
  }

  lemma {:induction false} PairsOfMap(keys: seq<string>, labels: Labels)
    requires forall i :: 0 <= i < |keys| ==> keys[i] in labels
    ensures forall k :: k in MapOf(PairsOf(keys, labels)) <==> k in keys
    ensures forall k :: k in keys ==> MapOf(PairsOf(keys, labels))[k] == labels[k]
  {
    if keys != [] {
      var n := |keys| - 1;
      PairsOfMap(keys[..n], labels);
      var front, last := PairsOf(keys[..n], labels), Pair(keys[n], labels[keys[n]]);
      assert (front + [last])[..|front|] == front;
      assert keys == keys[..n] + [keys[n]];
    }
  }

  lemma {:induction false} KeysValid(parts: seq<string>)
    requires LabelsOf(parts).Some?
    ensures forall k :: k in LabelsOf(parts).value ==> IsLabelKey(k)
  {
    hide IsName, TrimSpace, Unquote;
    if parts != [] { KeysValid(parts[..|parts| - 1]); }
  }

  lemma {:induction false} FieldsWords(s: string)
    ensures forall i :: 0 <= i < |Fields(s)| ==> Word(Fields(s)[i])
    decreases |s|
  {
    var t := TrimLeft(s);
    TrimLeftShorter(s);
    if t != [] {
      WordStops(t);
      FieldsWords(t[WordLength(t)..]);
    }
  }

  lemma {:induction false} WordStops(s: string)
    ensures Spaceless(s[..WordLength(s)])
  {
    var n := WordLength(s);
    if n > 0 {
      WordStops(s[1..]);
      var w := s[..n];
      forall i | 0 <= i < n ensures SpaceAhead(w[i..]) == 0 {
        if i > 0 {
          assert w[1..] == s[1..][..n - 1] && w[i..] == w[1..][i - 1..];
        } else {
          assert w[0..] == w && w[0] == s[0];
        }
      }
    }
  }

  /** The labels read from a line can be printed, with every key once. */
  lemma LabelsPrintable(labels: Labels)
    requires forall k :: k in labels ==> IsLabelKey(k)
    ensures var pairs := PairsOf(SortedKeys(labels.Keys), labels);
            LabelKeys(pairs) && Different(pairs) && MapOf(pairs) == labels
  {
    var keys := SortedKeys(labels.Keys);
    SortedKeysSorted(labels.Keys);
    hide SortedKeys, IsName, MapOf, PairsOf;
    PairsOfAt(keys, labels);
    PairsOfMap(keys, labels);
  }

  lemma ExprValid(expr: string)
    requires ParseExpr(expr).Some?
    ensures IsMetricName(ParseExpr(expr).value.0) && forall k :: k in ParseExpr(expr).value.1 ==> IsLabelKey(k)
  {
    hide IsName, LabelsOf, TrimSpace, SplitPairs;
    var open := IndexOf(expr, '{');
    if open >= 0 {
      var raw := expr[open + 1..|expr| - 1];
      if TrimSpace(raw) != "" {
        var parts := SplitPairs("", TrimSpace(raw), OPEN);
        KeysValid(parts.value);
      }
    }
  }

  /** What was read of a line can be printed: every key once, the value as a word. */
  lemma AcceptedIsPrintable(line: string, float: string -> Option<real>) returns (p: Printed)
    requires ParseLine(line, float).Some?
    ensures Printable(p) && float(p.value).Some?
    ensures ParseLine(line, float).value == Sample(p.name, MapOf(p.pairs), float(p.value).value)
  {
    var split := SplitSampleLine(line).value;
    var sample := ParseLine(line, float).value;
    FieldsWords(TrimSpace(line[BreakAt(line, OPEN)..]));
    ExprValid(split.0);
    hide SplitSampleLine, ParseExpr, IsName, PairsOf, SortedKeys;
    LabelsPrintable(sample.labels);
    p := Printed(sample.name, PairsOf(SortedKeys(sample.labels.Keys), sample.labels), split.1, None);
  }

  lemma ScrubAllValid(labels: Labels)
    ensures AllValid(ScrubAll(labels))
  {
    forall k | k in labels ensures Valid(Scrub(labels[k])) {
      ScrubIsValid(labels[k]);
    }
  }

  /**
    Whatever line is accepted, blanks, timestamps and escapes as they may be: some
    canonical printing reads back as the same sample, exactly when every label value
    that was read is valid UTF-8.
   */
  lemma AcceptedLinesNormalise(line: string, float: string -> Option<real>)
    requires ParseLine(line, float).Some?
    ensures (exists p :: Printable(p) && ParseLine(PrintLine(p), float) == ParseLine(line, float))
            <==> AllValid(ParseLine(line, float).value.labels)
  {
    var p := AcceptedIsPrintable(line, float);
    LineReads(p, float, float(p.value).value);
    if q :| Printable(q) && ParseLine(PrintLine(q), float) == ParseLine(line, float) {
      hide Printable, PrintLine, AllValid, ScrubAll, MapOf;
      PrintedReadsValid(q, float);
    }
  }

  /** What is read of a printed line is valid. */
  lemma PrintedReadsValid(q: Printed, float: string -> Option<real>)
    requires Printable(q) && ParseLine(PrintLine(q), float).Some?
    ensures AllValid(ParseLine(PrintLine(q), float).value.labels)
  {
    LineSplits(q);
    hide SplitSampleLine, PrintLine, PrintExpr, ParseExpr, Printable, AllValid;
    LineReads(q, float, float(q.value).value);
    ScrubAllValid(MapOf(q.pairs));
  }

  /** A byte escape makes a label value that no printing gives back. */
  lemma ByteEscapeDoesNotNormalise(float: string -> Option<real>)
    requires float("1").Some?
    ensures var line := "m{a=\"\\xff\"} 1";
            && ParseLine(line, float) == Some(Sample("m", map["a" := "\U{FF}"], float("1").value))
            && !exists p :: Printable(p) && ParseLine(PrintLine(p), float) == ParseLine(line, float)
  {
    ByteEscapeReads("m{a=\"\\xff\"} 1", float);
    ByteIsNotValid();
    hide ParseLine, PrintLine, Printable, AllValid;
    AcceptedLinesNormalise("m{a=\"\\xff\"} 1", float);
  }

  lemma ByteIsNotValid()
    ensures !AllValid(map["a" := "\U{FF}"])
  {
    var labels := map["a" := "\U{FF}"];
    assert "a" in labels && !Valid(labels["a"]);
  }

  /** The quoted value whose one byte is written in hexadecimal. */
  ghost predicate ByteEscape(value: string) {
    value == "\"\\xff\""
  }

  lemma ByteEscapeReads(line: string, float: string -> Option<real>)
    requires line == "m{a=\"\\xff\"} 1" && float("1").Some?
    ensures ParseLine(line, float) == Some(Sample("m", map["a" := "\U{FF}"], float("1").value))
  {
    var value, w := line[4..10], line[12..];
    assert value == "\"\\xff\"" && w == "1";
    assert line == "m{" + ("a=" + value) + "}" + (" " + w);
    hide ParseExpr, SplitSampleLine;
    ByteEscapeSplits(value, w);
    ByteEscapeExpr(value, line[..1]);
  }

  lemma ByteEscapeExpr(value: string, name: string)
    requires ByteEscape(value) && name == "m"
    ensures ParseExpr("m{" + ("a=" + value) + "}") == Some(("m", map["a" := "\U{FF}"]))
  {
    assert '{' !in name && IsMetricName(name);
    hide ParseLabels, ParseExpr, IsName, ByteEscape;
    ByteEscapeLabels(value, "a");
    BracedReads(name, "a=" + value);
    assert name + "{" + ("a=" + value) + "}" == "m{" + ("a=" + value) + "}";
  }

  lemma ByteEscapeSplits(value: string, w: string)
    requires ByteEscape(value) && w == "1"
    ensures SplitSampleLine("m{" + ("a=" + value) + "}" + (" " + w)) == Some(("m{" + ("a=" + value) + "}", w))
  {
    var expr := "m{" + ("a=" + value) + "}";
    ByteEscapeScans(value);
    assert Solid(expr[0]) && Solid(expr[|expr| - 1]) && Word(w);
    hide Quiet, After, Fields, TrimSpace, SplitSampleLine, Solid, Word;
    TrimKeeps(expr);
    WordAloneTrims(w);
    TextSplits(expr, w, [w]);
  }

  lemma WordAloneTrims(w: string)
    requires Word(w)
    ensures TrimSpace(" " + w) == w && Fields(w) == [w]
  {
    OneField(w);
    BlankSkipped(w);
    FieldsStart(w, "");
    WordBehind("", w);
    assert w + "" == w && "" + w == w;
  }

  lemma {:induction false} InQuotes(s: string, sep: char -> bool)
    requires '"' !in s && '\\' !in s
    ensures Quiet(QUOTED, s, sep) && After(QUOTED, s) == QUOTED
  {
    if s != [] { InQuotes(s[1..], sep); }
  }

  lemma ByteScans(value: string, sep: char -> bool)
    requires ByteEscape(value)
    ensures Quiet(OPEN, value, sep) && After(OPEN, value) == OPEN
  {
    var q, e, digits := value[..1], value[1..3], value[3..5];
    assert q[1..] == [] && e[1..] == [e[1]] && e[1..][1..] == [];
    assert After(OPEN, q) == QUOTED && After(QUOTED, q) == OPEN;
    var escaped := Step(QUOTED, e[0]);
    assert escaped == Scan(true, true) && Step(escaped, e[1]) == QUOTED;
    assert After(escaped, e[1..]) == QUOTED && Quiet(escaped, e[1..], sep);
    InQuotes(digits, sep);
    QuietJoin(OPEN, q, e, sep);
    QuietJoin(OPEN, q + e, digits, sep);
    QuietJoin(OPEN, q + e + digits, q, sep);
    hide Quiet, After;
    assert q + e + digits + q == value;
  }

  lemma ByteEscapeScans(value: string)
    requires ByteEscape(value)
    ensures var pair := "a=" + value; Quiet(OPEN, pair, Comma) && After(OPEN, pair) == OPEN
    ensures var expr := "m{" + ("a=" + value) + "}"; Quiet(OPEN, expr, Blank) && After(OPEN, expr) == OPEN
  {
    hide Quiet, After;
    ByteScans(value, Blank);
    ByteScans(value, Comma);
    hide ByteEscape;
    PlainScan("m{", Blank);
    PlainScan("a=", Blank);
    PlainScan("a=", Comma);
    PlainScan("}", Blank);
    QuietJoin(OPEN, "a=", value, Comma);
    QuietJoin(OPEN, "a=", value, Blank);
    QuietJoin(OPEN, "m{", "a=" + value, Blank);
    QuietJoin(OPEN, "m{" + ("a=" + value), "}", Blank);
  }

  lemma ByteEscapeLabels(value: string, key: string)
    requires ByteEscape(value) && key == "a"
    ensures ParseLabels("a=" + value) == Some(map["a" := "\U{FF}"])
  {
    var pair := "a=" + value;
    assert pair != "" && Solid(pair[0]) && Solid(pair[|pair| - 1]);
    hide Quiet, After, SplitPairs, TrimSpace, ParsePair, ParseLabels, LabelsOf, Solid, ByteEscape;
    ByteEscapeScans(value);
    ByteEscapePair(value, key);
    OnePart(pair);
    NoPairs();
    LabelsMore([], pair);
    assert [] + [pair] == [pair];
  }

  lemma OnePart(pair: string)
    requires pair != "" && Solid(pair[0]) && Solid(pair[|pair| - 1])
    requires Quiet(OPEN, pair, Comma) && After(OPEN, pair) == OPEN
    ensures ParseLabels(pair) == LabelsOf([pair])
  {
    hide Quiet, After, SplitPairs, TrimSpace, LabelsOf, Solid, ParseLabels;
    TrimKeeps(pair);
    assert Join([pair], ',') == pair;
    JoinedReads([pair]);
  }

  lemma ByteUnquotes(value: string)
    requires ByteEscape(value)
    ensures Unquote(value) == Some("\U{FF}")
  {
    var body, digits := value[1..], value[3..5];
    assert body[2..4] == digits && digits[..1] == [digits[0]] && digits[..1][..0] == [] && body[4..] == [value[5]];
    assert Numeral(digits[..1], 16) == Some(15);
    assert Numeral(digits, 16) == Some(255);
    assert ReadEscape(body) == Escape(Some([Byte(255)]), 4);
    assert UnquoteBody(body[4..]) == Some("");
    assert [Byte(255)] + "" == "\U{FF}";
  }

  lemma ByteEscapePair(value: string, key: string)
    requires ByteEscape(value) && key == "a"
    ensures ParsePair("a=" + value) == Some(("a", "\U{FF}"))
  {
    var pair := "a=" + value;
    assert pair == key + ['='] + value;
    FirstAt(key, '=', value);
    TrimKeeps(pair);
    TrimKeeps(key);
    TrimKeeps(value);
    ByteUnquotes(value);
    hide Unquote, TrimSpace;
    assert pair[..|key|] == key && pair[|key| + 1..] == value;
  }

  // --------------------------------------------------------------------- documents

  /**
    A line of which no sample can be read: without a blank outside quotes, or with a
    first word that is no metric name, a second that is no number, or a third that is
    no timestamp.
   */
  datatype Junk =
    | NoBlank(text: string)
    | WrongName(name: string, word: string)
    | WrongValue(name: string, word: string)
    | WrongTime(name: string, word: string, time: string)
    | Crowded(name: string, words: seq<string>)
    | Repeated(name: string, pairs: seq<Pair>, word: string)

  function JunkLine(j: Junk): string {
    match j
    case NoBlank(text) => text
    case WrongName(name, word) => name + " " + word
    case WrongValue(name, word) => name + " " + word
    case WrongTime(name, word, time) => name + " " + word + " " + time
    case Crowded(name, words) => name + " " + (if words == [] then "" else Join(words, ' '))
    case Repeated(name, pairs, word) => PrintExpr(name, pairs) + " " + word
  }

  /** A first word that could be one of a sample without labels, were it a metric name. */
  predicate Bare(s: string) {
    s != [] && s[0] != '#' && forall i :: 0 <= i < |s| ==> Solid(s[i]) && s[i] != '"' && s[i] != '{'
  }

  ghost predicate JunkOk(j: Junk, float: string -> Option<real>) {
    match j
    case NoBlank(text) => !Skipped(text) && '\n' !in text && Quiet(OPEN, TrimSpace(text), Blank)
    case WrongName(name, word) => Bare(name) && !IsMetricName(name) && Word(word)
    case WrongValue(name, word) => IsMetricName(name) && Word(word) && float(word).None?
    case WrongTime(name, word, time) => IsMetricName(name) && Word(word) && Word(time) && !IsInt64(time)
    case Crowded(name, words) => IsMetricName(name) && |words| > 2 && Words(words)
    case Repeated(name, pairs, word) => IsMetricName(name) && LabelKeys(pairs) && !Different(pairs) && Word(word)
  }

  ghost predicate Words(words: seq<string>) {
    forall i :: 0 <= i < |words| ==> Word(words[i])
  }

  /** A line of a document: a comment or blank line, a printed sample, or junk. */
  datatype Entry = Note(text: string) | Shown(sample: Printed) | Junked(junk: Junk)

  ghost predicate EntryOk(e: Entry, float: string -> Option<real>) {
    match e
    case Note(text) => (TrimSpace(text) == "" || TrimSpace(text)[0] == '#') && '\n' !in text
    case Shown(p) => Printable(p) && float(p.value).Some?
    case Junked(j) => JunkOk(j, float)
  }

  function Render(e: Entry): string {
    match e
    case Note(text) => text
    case Shown(p) => PrintLine(p)
    case Junked(j) => JunkLine(j)
  }

  function JunkCount(entries: seq<Entry>): nat {
    if entries == [] then 0 else JunkCount(entries[..|entries| - 1]) + (if entries[|entries| - 1].Junked? then 1 else 0)
  }

  function Rendered(entries: seq<Entry>): seq<string> {
    if entries == [] then [] else Rendered(entries[..|entries| - 1]) + [Render(entries[|entries| - 1])]
  }

  /** The samples of the document that pass the filter. */
  function Shows(entries: seq<Entry>, float: string -> Option<real>, keep: string -> bool): seq<Sample> {
    if entries == [] then []
    else
      var e := entries[|entries| - 1];
      Shows(entries[..|entries| - 1], float, keep)
      + (if e.Shown? && keep(e.sample.name) && float(e.sample.value).Some?
         then [Sample(e.sample.name, ScrubAll(MapOf(e.sample.pairs)), float(e.sample.value).value)] else [])
  }

  lemma {:induction false} EscapeOneLine(v: string)
    ensures '\n' !in Escaped(v)
  {
    if v != [] { EscapeOneLine(v[1..]); }
  }

  lemma {:induction false} JoinOneLine(parts: seq<string>)
    requires parts != [] && Lacks(parts, '\n')
    ensures '\n' !in Join(parts, ',')
  {
    if |parts| > 1 { JoinOneLine(parts[1..]); }
  }

  lemma WordOneLine(w: string)
    requires Word(w)
    ensures '\n' !in w
  {
    forall i | 0 <= i < |w| ensures w[i] != '\n' {
      assert SpaceAhead(w[i..]) == 0;
    }
  }

  lemma ExprOneLine(name: string, pairs: seq<Pair>)
    requires IsMetricName(name) && LabelKeys(pairs)
    ensures '\n' !in PrintExpr(name, pairs)
  {
    NameChars(name, true);
    if pairs != [] {
      PrintPairsAt(pairs);
      forall i | 0 <= i < |pairs|
        ensures '\n' !in PrintPair(pairs[i])
      {
        NameChars(pairs[i].key, false);
        EscapeOneLine(pairs[i].value);
      }
      hide PrintPair, PrintPairs;
      JoinOneLine(PrintPairs(pairs));
    }
  }

  /** A printed sample is one line, which is neither trimmed nor taken for a comment. */
  lemma LineStands(p: Printed)
    requires Printable(p)
    ensures var line := PrintLine(p); '\n' !in line && TrimSpace(line) == line && line != "" && line[0] != '#'
  {
    ExprOneLine(p.name, p.pairs);
    ExprScans(p.name, p.pairs);
    var expr := PrintExpr(p.name, p.pairs);
    TailEnds(p, expr + " ");
    WordOneLine(p.value);
    if p.timestamp.Some? {
      NumberIsWord(p.timestamp.value);
      WordOneLine(p.timestamp.value);
    }
    hide PrintExpr, Quiet, After, SpaceBehind, IsName, Word, IsInt64;
    assert PrintLine(p) == expr + " " + Tail(p);
    assert SpaceAhead(PrintLine(p)) == 0;
  }

  lemma BareChars(name: string)
    requires IsMetricName(name)
    ensures Bare(name)
  {
    NameChars(name, true);
  }

  lemma QuietEnds(s: string, sc: Scan)
    requires Quiet(sc, s, Blank)
    ensures BreakAt(s, sc) == -1
  {
    BreakAfter(sc, s, "");
    assert s + "" == s;
  }

  /** The last word of a line ends it. */
  lemma LineEnds(a: string, w: string)
    requires Word(w) && a != [] && Solid(a[0]) && a[|a| - 1] == ' '
    ensures TrimSpace(a + w) == a + w
  {
    WordBehind(a, w);
    hide SpaceBehind;
    assert SpaceAhead(a + w) == 0;
  }

  /** A line that starts with a bare word is split after it. */
  lemma BareSplits(name: string, tail: string)
    requires Bare(name) && tail != [] && SpaceAhead(tail) == 0 && SpaceBehind(tail) == 0
    ensures BreakAt(name + " " + tail, OPEN) == |name|
    ensures TrimSpace((name + " " + tail)[..|name|]) == name && TrimSpace((name + " " + tail)[|name|..]) == tail
  {
    var line := name + " " + tail;
    PlainScan(name, Blank);
    BreakAfter(OPEN, name, " " + tail);
    assert line == name + (" " + tail) && BreakAt(" " + tail, OPEN) == 0;
    TrimKeeps(name);
    BlankSkipped(tail);
    assert line[..|name|] == name && line[|name|..] == " " + tail;
    hide SpaceAhead, SpaceBehind, Quiet, BreakAt;
    assert TrimLeft(tail) == tail && TrimRight(tail) == tail by { NotTrimmed(tail); }
  }

  lemma NotTrimmed(s: string)
    requires SpaceAhead(s) == 0 && SpaceBehind(s) == 0
    ensures TrimLeft(s) == s && TrimRight(s) == s
  {
  }

  lemma WordStands(w: string)
    requires Word(w)
    ensures SpaceAhead(w) == 0 && SpaceBehind(w) == 0
  {
    WordBehind("", w);
    assert "" + w == w && w[0..] == w;
    assert SpaceAhead(w[0..]) == 0;
  }

  lemma TwoWordsStand(w: string, v: string)
    requires Word(w) && Word(v)
    ensures SpaceAhead(w + " " + v) == 0 && SpaceBehind(w + " " + v) == 0
  {
    WordAhead(w, " " + v);
    WordBehind(w + " ", v);
    assert (w + " " + v)[0..] == w + " " + v && w + " " + v == w + (" " + v);
    assert SpaceAhead((w + (" " + v))[0..]) == 0;
  }

  /** One word after the name: what is read depends on the name and on that word. */
  lemma OneWordReads(name: string, w: string, float: string -> Option<real>)
    requires Bare(name) && Word(w) && (!IsMetricName(name) || float(w).None?)
    ensures ParseLine(name + " " + w, float).None?
  {
    hide Word, SpaceAhead, SpaceBehind, TrimSpace, Fields, Bare, IsInt64, BreakAt;
    WordStands(w);
    WordNotEmpty(w);
    BareSplits(name, w);
    OneField(w);
    BareExpr(name);
    assert SplitSampleLine(name + " " + w) == Some((name, w));
  }

  lemma WordNotEmpty(w: string)
    requires Word(w)
    ensures w != []
  {
  }

  lemma BareExpr(name: string)
    requires Bare(name)
    ensures name != "" && IndexOf(name, '{') < 0 && (!IsMetricName(name) ==> ParseExpr(name).None?)
  {
    assert '{' !in name;
  }

  lemma WrongTimeReads(name: string, w: string, time: string, float: string -> Option<real>)
    requires Bare(name) && Word(w) && Word(time) && !IsInt64(time)
    ensures ParseLine(name + " " + w + " " + time, float).None?
  {
    hide Word, SpaceAhead, SpaceBehind, TrimSpace, Fields, Bare, IsInt64, BreakAt;
    TwoWordsStand(w, time);
    BareSplits(name, w + " " + time);
    TwoFields(w, time);
    assert name + " " + (w + " " + time) == name + " " + w + " " + time;
    assert SplitSampleLine(name + " " + w + " " + time) == None;
  }

  /** Junk is one line, it is no comment, and no sample can be read of it. */
  lemma JunkReads(j: Junk, float: string -> Option<real>)
    requires JunkOk(j, float)
    ensures '\n' !in JunkLine(j) && Unread(JunkLine(j), float)
  {
    match j
    case NoBlank(text) =>
      QuietEnds(TrimSpace(text), OPEN);
      hide Quiet, TrimSpace;
    case WrongName(name, word) => WordsUnread(name, word, float);
    case WrongValue(name, word) =>
      BareChars(name);
      WordsUnread(name, word, float);
    case WrongTime(name, word, time) =>
      BareChars(name);
      TimeUnread(name, word, time, float);
    case Crowded(name, words) =>
      BareChars(name);
      CrowdUnread(name, words, float);
    case Repeated(name, pairs, word) => RepeatedUnread(name, pairs, word, float);
  }

  lemma {:induction false} JoinLast(words: seq<string>)
    requires words != []
    ensures var n := |words| - 1;
            Join(words, ' ') == (if n == 0 then "" else Join(words[..n], ' ') + " ") + words[n]
  {
    var n := |words| - 1;
    if n > 0 {
      JoinLast(words[1..]);
      assert words[1..][..n - 1] == words[..n][1..];
      if n == 1 { assert words[..n] == [words[0]]; }
    }
  }

  /** Words joined by blanks are the fields of the text, and it has no blank at its ends. */
  lemma {:induction false} FieldsJoined(words: seq<string>)
    requires words != [] && Words(words)
    ensures var s := Join(words, ' ');
            Fields(s) == words && s != [] && SpaceAhead(s) == 0 && '\n' !in s
  {
    hide Fields, SpaceAhead;
    var w := words[0];
    WordStands(w);
    WordOneLine(w);
    if |words| == 1 {
      OneField(w);
    } else {
      var rest := Join(words[1..], ' ');
      FieldsJoined(words[1..]);
      FieldsStart(w, " " + rest);
      BlankSkipped(rest);
      WordAhead(w, " " + rest);
      assert Join(words, ' ') == w + (" " + rest);
      assert (w + (" " + rest))[0..] == w + (" " + rest) && SpaceAhead((w + (" " + rest))[0..]) == 0;
    }
  }

  lemma CrowdUnread(name: string, words: seq<string>, float: string -> Option<real>)
    requires Bare(name) && |words| > 2 && Words(words)
    ensures var line := name + " " + Join(words, ' '); '\n' !in line && Unread(line, float)
  {
    hide Bare, Word, IsName, TrimSpace, SpaceAhead, SpaceBehind, Fields, BreakAt, Join, Unescape, ParseExpr, IsInt64;
    var s, n := Join(words, ' '), |words| - 1;
    BareStarts(name);
    FieldsJoined(words);
    JoinLast(words);
    var front := Join(words[..n], ' ') + " ";
    WordBehind(front, words[n]);
    assert name + " " + s == (name + " " + front) + words[n];
    LineEnds(name + " " + front, words[n]);
    BareSplits(name, s);
    assert SplitSampleLine(name + " " + s) == None;
  }

  /** A label key that comes twice is refused. */
  lemma {:induction false} RepeatedRefused(pairs: seq<Pair>)
    requires LabelKeys(pairs) && !Different(pairs)
    ensures pairs != [] && LabelsOf(PrintPairs(pairs)) == None
  {
    hide ParsePair, PrintPair, LabelsOf, MapOf, ScrubAll, Scrub, IsName;
    var n := |pairs| - 1;
    PairParses(pairs[n]);
    LabelsMore(PrintPairs(pairs[..n]), PrintPair(pairs[n]));
    if Different(pairs[..n]) {
      LabelsRead(pairs[..n]);
      ScrubMore(pairs);
      MapKeys(pairs[..n]);
      var i := KeyAgain(pairs);
    } else {
      RepeatedRefused(pairs[..n]);
    }
  }

  lemma KeyAgain(pairs: seq<Pair>) returns (i: nat)
    requires pairs != [] && Different(pairs[..|pairs| - 1]) && !Different(pairs)
    ensures i < |pairs| - 1 && pairs[..|pairs| - 1][i].key == pairs[|pairs| - 1].key
  {
    var n := |pairs| - 1;
    assert forall i :: 0 <= i < n ==> pairs[..n][i] == pairs[i];
    i :| i < n && pairs[i].key == pairs[n].key;
  }

  lemma BlankTrimmed(word: string)
    requires TrimLeft(" " + word) == TrimLeft(word) && TrimLeft(word) == word && TrimRight(word) == word
    ensures TrimSpace(" " + word) == word
  {
  }

  lemma RepeatedUnread(name: string, pairs: seq<Pair>, word: string, float: string -> Option<real>)
    requires IsMetricName(name) && LabelKeys(pairs) && !Different(pairs) && Word(word)
    ensures var line := PrintExpr(name, pairs) + " " + word; '\n' !in line && Unread(line, float)
  {
    hide PrintExpr, Quiet, After, SpaceBehind, IsName, Word, LabelKeys, Different, TrimSpace, SplitSampleLine, ParseExpr,
         Fields, Solid, SpaceAhead;
    var expr := PrintExpr(name, pairs);
    ExprOneLine(name, pairs);
    ExprScans(name, pairs);
    WordOneLine(word);
    LineEnds(expr + " ", word);
    OneField(word);
    WordStands(word);
    BlankSkipped(word);
    WordNotEmpty(word);
    NotTrimmed(word);
    BlankTrimmed(word);
    TrimKeeps(expr);
    assert expr + " " + word == expr + (" " + word);
    TextSplits(expr, word, [word]);
    RepeatedExpr(name, pairs);
  }

  lemma RepeatedExpr(name: string, pairs: seq<Pair>)
    requires IsMetricName(name) && LabelKeys(pairs) && !Different(pairs)
    ensures ParseExpr(PrintExpr(name, pairs)) == None
  {
    hide PrintPairs, ParseLabels, IsName, Join, LabelKeys, Different, LabelsOf, Parts, Quiet, After, Solid;
    RepeatedRefused(pairs);
    PairsFacts(pairs);
    PairsPrinted(pairs);
    JoinedReads(PrintPairs(pairs));
    NameChars(name, true);
    BracedRefuses(name, Join(PrintPairs(pairs), ','));
  }

  lemma BracedRefuses(name: string, raw: string)
    requires IsMetricName(name) && '{' !in name && ParseLabels(raw).None?
    ensures ParseExpr(name + "{" + raw + "}") == None
  {
    hide ParseLabels, IsName;
    var expr := name + "{" + raw + "}";
    assert expr == name + ['{'] + (raw + "}");
    FirstAt(name, '{', raw + "}");
    assert expr[..|name|] == name && expr[|name| + 1..|expr| - 1] == raw;
  }

  lemma BareStarts(name: string)
    requires Bare(name)
    ensures name != [] && Solid(name[0]) && name[0] != '#' && '\n' !in name
  {
  }

  lemma WordsUnread(name: string, w: string, float: string -> Option<real>)
    requires Bare(name) && Word(w) && (!IsMetricName(name) || float(w).None?)
    ensures '\n' !in name + " " + w && Unread(name + " " + w, float)
  {
    hide Bare, Word, IsName, ParseLine, TrimLeft, TrimRight, TrimSpace;
    BareStarts(name);
    WordOneLine(w);
    LineEnds(name + " ", w);
    OneWordReads(name, w, float);
  }

  lemma TimeUnread(name: string, w: string, time: string, float: string -> Option<real>)
    requires Bare(name) && Word(w) && Word(time) && !IsInt64(time)
    ensures '\n' !in name + " " + w + " " + time && Unread(name + " " + w + " " + time, float)
  {
    hide Bare, Word, IsName, ParseLine, TrimLeft, TrimRight, TrimSpace, IsInt64;
    BareStarts(name);
    WordOneLine(w);
    WordOneLine(time);
    LineEnds(name + " " + w + " ", time);
    WrongTimeReads(name, w, time, float);
  }

  lemma {:induction false} RenderedLines(entries: seq<Entry>, float: string -> Option<real>)
    requires forall i :: 0 <= i < |entries| ==> EntryOk(entries[i], float)
    ensures |Rendered(entries)| == |entries| && Lacks(Rendered(entries), '\n')
  {
    hide EntryOk, Render;
    if entries != [] {
      var n := |entries| - 1;
      RenderedLines(entries[..n], float);
      EntryOneLine(entries[n], float);
    }
  }

  lemma EntryOneLine(e: Entry, float: string -> Option<real>)
    requires EntryOk(e, float)
    ensures '\n' !in Render(e)
  {
    hide PrintLine, Printable, JunkOk, JunkLine, Unread;
    if e.Shown? { LineStands(e.sample); }
    if e.Junked? { JunkReads(e.junk, float); }
  }

  lemma EntryReads(e: Entry, float: string -> Option<real>)
    requires EntryOk(e, float)
    ensures Skipped(Render(e)) <==> e.Note?
    ensures e.Junked? ==> ParseLine(TrimSpace(Render(e)), float).None?
    ensures e.Shown? ==>
              && float(e.sample.value).Some?
              && ParseLine(TrimSpace(Render(e)), float)
                 == Some(Sample(e.sample.name, ScrubAll(MapOf(e.sample.pairs)), float(e.sample.value).value))
  {
    hide PrintLine, Printable, ParseLine, TrimSpace, MapOf, JunkLine, JunkOk;
    if e.Shown? {
      LineStands(e.sample);
      LineReads(e.sample, float, float(e.sample.value).value);
    }
    if e.Junked? { JunkReads(e.junk, float); }
  }

  lemma {:induction false} LinesRead(entries: seq<Entry>, float: string -> Option<real>, keep: string -> bool)
    requires forall i :: 0 <= i < |entries| ==> EntryOk(entries[i], float)
    ensures ParseLines(Rendered(entries), float, keep) == (Shows(entries, float, keep), JunkCount(entries))
  {
    hide EntryOk, Skipped, ParseLine, TrimSpace, MapOf, Render;
    if entries != [] {
      var n := |entries| - 1;
      LinesRead(entries[..n], float, keep);
      EntryReads(entries[n], float);
      var lines := Rendered(entries);
      assert lines[..|lines| - 1] == Rendered(entries[..n]) && lines[|lines| - 1] == Render(entries[n]);
      assert Shows(entries[..n], float, keep) + [] == Shows(entries[..n], float, keep);
    }
  }

  lemma {:induction false} RenderedFront(entries: seq<Entry>, n: nat)
    requires n <= |entries| == |Rendered(entries)|
    ensures Rendered(entries)[..n] == Rendered(entries[..n])
  {
    var m := |entries| - 1;
    if n <= m {
      RenderedFront(entries[..m], n);
      assert entries[..m][..n] == entries[..n];
    } else {
      assert entries[..n] == entries;
    }
  }

  /**
    A document of printed samples, comments and junk reads back as exactly its samples,
    with one error for each line of junk, up to the first line the scanner has no room for.
   */
  lemma DocumentReads(entries: seq<Entry>, float: string -> Option<real>, keep: string -> bool)
    requires entries != [] && forall i :: 0 <= i < |entries| ==> EntryOk(entries[i], float)
    ensures |Rendered(entries)| == |entries|
    ensures var n := Scannable(Rendered(entries));
            ParseText(Join(Rendered(entries), '\n'), float, keep)
            == Reading(Shows(entries[..n], float, keep), JunkCount(entries[..n]), n == |entries|)
  {
    RenderedLines(entries, float);
    JoinSplits(Rendered(entries), '\n');
    var n := Scannable(Rendered(entries));
    RenderedFront(entries, n);
    LinesRead(entries[..n], float, keep);
  }

  // ------------------------------------------------------------- blanks and numbers

  /** Any of the five blanks separates, wherever quotes are closed. */
  lemma AnyBlankSeparates(a: string, c: char, b: string)
    requires Quiet(OPEN, a, Blank) && After(OPEN, a) == OPEN
    ensures c in " \t\n\r\U{C}" ==> BreakAt(a + [c] + b, OPEN) == |a|
  {
    if c in " \t\n\r\U{C}" {
      BreakAfter(OPEN, a, [c] + b);
      assert BreakAt([c] + b, OPEN) == 0 && a + [c] + b == a + ([c] + b);
    }
  }

  lemma {:induction false} DecimalReads(n: nat)
    ensures DecimalValue(Decimal(n)) == n && Decimal(n) != [] && forall i :: 0 <= i < |Decimal(n)| ==> IsDigit(Decimal(n)[i])
  {
    if n >= 10 {
      DecimalReads(n / 10);
      assert Decimal(n)[..|Decimal(n)| - 1] == Decimal(n / 10);
    } else {
      assert Decimal(n)[..0] == [] && DecimalValue([]) == 0;
    }
  }

  /** The numbers accepted as timestamps are those of 64 bits. */
  lemma Int64Exactly(n: nat)
    ensures IsInt64(Decimal(n)) <==> n < 0x8000_0000_0000_0000
    ensures IsInt64("+" + Decimal(n)) <==> n < 0x8000_0000_0000_0000
    ensures IsInt64("-" + Decimal(n)) <==> n <= 0x8000_0000_0000_0000
  {
    DecimalReads(n);
    hide Decimal, DecimalValue;
    assert Decimal(n)[0] != '+' && Decimal(n)[0] != '-' by { assert IsDigit(Decimal(n)[0]); }
    assert ("+" + Decimal(n))[1..] == Decimal(n) && ("-" + Decimal(n))[1..] == Decimal(n);
  }
}
