/**
  The keys metrics are kept under: metricKey and metricNameFromKey of
  benchkit/kernel/kernel.go, and metricSnapshotKey of benchkit/contract/types.go,
  which is the same code. A Go string is a sequence of bytes, here one character
  below 256 per byte.
 */
module MetricKeys {
  import opened Ordering
  import opened Strings

  type Labels = map<string, string>

  predicate IsByte(c: char) {
    c as int < 256
  }

  predicate Bytes(s: string) {
    forall i :: 0 <= i < |s| ==> IsByte(s[i])
  }

  ghost predicate ByteLabels(labels: Labels) {
    forall k :: k in labels ==> Bytes(k) && Bytes(labels[k])
  }

  predicate Unreserved(c: char) {
    'a' <= c <= 'z' || 'A' <= c <= 'Z' || '0' <= c <= '9' || c == '-' || c == '_' || c == '.' || c == '~'
  }

  function HexDigit(n: nat): char
    requires n < 16
  {
    "0123456789ABCDEF"[n]
  }

  function EscapeChar(c: char): string {
    if Unreserved(c) then [c]
    else if c == ' ' then "+"
    else ['%', HexDigit(c as int / 16 % 16), HexDigit(c as int % 16)]
  }

  /** url.QueryEscape */
  function QueryEscape(s: string): string {
    if s == [] then [] else EscapeChar(s[0]) + QueryEscape(s[1..])
  }

  function Part(k: string, v: string): string {
    QueryEscape(k) + "=" + QueryEscape(v)
  }

  function Parts(keys: seq<string>, labels: Labels): seq<string> {
    if keys == [] then []
    else
      var n := |keys| - 1;
      Parts(keys[..n], labels) + [Part(keys[n], if keys[n] in labels then labels[keys[n]] else "")]
  }

  ghost function KeyOf(name: string, labels: Labels): string {
    if labels == map[] then name
    else
      var parts := Parts(SortedKeys(labels.Keys), labels);
      if parts == [] then name else name + "{" + Join(parts, ',') + "}"
  }

  function NameFromKey(key: string): string {
    if key == [] || key[0] == '{' then [] else [key[0]] + NameFromKey(key[1..])
  }

  method MetricKey(name: string, labels: Labels) returns (key: string)
    ensures key == KeyOf(name, labels)
  {
    if |labels| == 0 {
      assert labels.Keys == {};
      return name;
    }
    var keys := ListKeys(labels.Keys);
    SortedKeysSorted(labels.Keys);
    SomeKey(labels);
    hide SortedKeys, Part, Parts;
    assert keys[..0] == [] && Parts([], labels) == [] by { NoParts(labels); }
    var parts := [];
    for i := 0 to |keys|
      invariant parts == Parts(keys[..i], labels) && |parts| == i
    {
      PartsMore(keys, i, labels);
      parts := parts + [Part(keys[i], labels[keys[i]])];
    }
    assert keys[..|keys|] == keys;
    return name + "{" + Join(parts, ',') + "}";
  }

  lemma NoParts(labels: Labels)
    ensures Parts([], labels) == []
  {
  }

  lemma PartsMore(keys: seq<string>, i: nat, labels: Labels)
    requires i < |keys| && forall k :: k in keys ==> k in labels
    ensures Parts(keys[..i + 1], labels) == Parts(keys[..i], labels) + [Part(keys[i], labels[keys[i]])]
  {
    assert keys[..i + 1][..i] == keys[..i];
  }

  lemma SomeKey(labels: Labels)
    requires |labels| != 0
    ensures labels != map[] && SortedKeys(labels.Keys) != []
  {
    SortedKeysSorted(labels.Keys);
    var k :| k in labels.Keys;
    assert k in SortedKeys(labels.Keys);
  }

  // --------------------------------------------------------------------- escaping

  lemma HexInjective(a: nat, b: nat)
    requires a < 16 && b < 16 && HexDigit(a) == HexDigit(b)
    ensures a == b
  {
  }

  /** What follows an escaped character does not matter for recognising it. */
  lemma EscapeCharInjective(a: char, s: string, b: char, t: string)
    requires IsByte(a) && IsByte(b) && EscapeChar(a) + s == EscapeChar(b) + t
    ensures a == b && s == t
  {
    var whole := EscapeChar(a) + s;
    assert whole[0] == EscapeChar(a)[0] && whole[0] == EscapeChar(b)[0];
    if !Unreserved(a) && a != ' ' {
      SameHexDigits(a, s, b, t);
    }
    assert s == whole[|EscapeChar(a)|..] && t == whole[|EscapeChar(b)|..];
  }

  lemma SameHexDigits(a: char, s: string, b: char, t: string)
    requires IsByte(a) && IsByte(b) && EscapeChar(a) + s == EscapeChar(b) + t
    requires |EscapeChar(a)| == 3 && |EscapeChar(b)| == 3
    ensures a == b
  {
    var whole := EscapeChar(a) + s;
    assert whole[1] == EscapeChar(a)[1] && whole[1] == EscapeChar(b)[1];
    assert whole[2] == EscapeChar(a)[2] && whole[2] == EscapeChar(b)[2];
    hide HexDigit;
    HexInjective(a as int / 16 % 16, b as int / 16 % 16);
    HexInjective(a as int % 16, b as int % 16);
  }

  lemma {:induction false} QueryEscapeInjective(a: string, b: string)
    requires Bytes(a) && Bytes(b) && QueryEscape(a) == QueryEscape(b)
    ensures a == b
  {
    if a != [] && b != [] {
      EscapeCharInjective(a[0], QueryEscape(a[1..]), b[0], QueryEscape(b[1..]));
      QueryEscapeInjective(a[1..], b[1..]);
      assert a == [a[0]] + a[1..] && b == [b[0]] + b[1..];
    }
  }

  /** Escaped text is made of unreserved characters, plus signs and percent signs. */
  predicate Plain(s: string) {
    forall i :: 0 <= i < |s| ==> Unreserved(s[i]) || s[i] == '+' || s[i] == '%'
  }

  lemma HexUnreserved(n: nat)
    requires n < 16
    ensures Unreserved(HexDigit(n))
  {
  }

  lemma {:induction false} QueryEscapePlain(s: string)
    ensures Plain(QueryEscape(s))
  {
    if s != [] {
      QueryEscapePlain(s[1..]);
      HexUnreserved(s[0] as int / 16 % 16);
      HexUnreserved(s[0] as int % 16);
    }
  }

  lemma PartSplits(k: string, v: string)
    ensures Split(Part(k, v), '=') == [QueryEscape(k), QueryEscape(v)] && ',' !in Part(k, v)
  {
    QueryEscapePlain(k);
    QueryEscapePlain(v);
    SplitTwo(QueryEscape(k), QueryEscape(v), '=');
    hide QueryEscape;
  }

  lemma PartInjective(k: string, v: string, k': string, v': string)
    requires Bytes(k) && Bytes(v) && Bytes(k') && Bytes(v') && Part(k, v) == Part(k', v')
    ensures k == k' && v == v'
  {
    PartSplits(k, v);
    PartSplits(k', v');
    var s, s' := Split(Part(k, v), '='), Split(Part(k', v'), '=');
    assert s[0] == s'[0] && s[1] == s'[1];
    QueryEscapeInjective(k, k');
    QueryEscapeInjective(v, v');
  }

  lemma LacksMore(parts: seq<string>, last: string, sep: char)
    requires Lacks(parts, sep) && sep !in last
    ensures Lacks(parts + [last], sep)
  {
  }

  lemma {:induction false} PartsAt(keys: seq<string>, labels: Labels)
    requires forall i :: 0 <= i < |keys| ==> keys[i] in labels
    ensures |Parts(keys, labels)| == |keys|
    ensures forall i :: 0 <= i < |keys| ==> Parts(keys, labels)[i] == Part(keys[i], labels[keys[i]])
    ensures Lacks(Parts(keys, labels), ',')
  {
    hide Part;
    if keys != [] {
      var n := |keys| - 1;
      var front, last := Parts(keys[..n], labels), Part(keys[n], labels[keys[n]]);
      PartsAt(keys[..n], labels);
      PartSplits(keys[n], labels[keys[n]]);
      assert Parts(keys, labels) == front + [last];
      hide Parts;
      assert forall i :: 0 <= i < n ==> (front + [last])[i] == Part(keys[i], labels[keys[i]]);
      LacksMore(front, last, ',');
    }
  }

  // ----------------------------------------------------------------------- the keys

  lemma {:induction false} NameBeforeBrace(name: string, rest: string)
    requires '{' !in name && (rest == [] || rest[0] == '{')
    ensures NameFromKey(name + rest) == name
  {
    if name == [] {
      assert name + rest == rest;
    } else {
      assert (name + rest)[1..] == name[1..] + rest;
      NameBeforeBrace(name[1..], rest);
      assert name == [name[0]] + name[1..];
    }
  }

  /** The list of label parts of a key with labels. */
  ghost function PartsOf(labels: Labels): seq<string> {
    Parts(SortedKeys(labels.Keys), labels)
  }

  lemma PartsFacts(labels: Labels)
    ensures var keys := SortedKeys(labels.Keys);
            && |PartsOf(labels)| == |keys| && (forall k :: k in keys <==> k in labels)
            && (forall i :: 0 <= i < |keys| ==> keys[i] in labels && PartsOf(labels)[i] == Part(keys[i], labels[keys[i]]))
            && Lacks(PartsOf(labels), ',')
            && (labels == map[] <==> PartsOf(labels) == [])
  {
    SortedKeysSorted(labels.Keys);
    PartsAt(SortedKeys(labels.Keys), labels);
    if labels != map[] {
      var k :| k in labels;
      assert k in SortedKeys(labels.Keys);
    }
  }

  lemma {:induction false} NameStops(key: string)
    ensures '{' !in NameFromKey(key)
  {
    if key != [] && key[0] != '{' { NameStops(key[1..]); }
  }

  /** The name can be read off the key, exactly if it holds no brace. */
  lemma NameRecovered(name: string, labels: Labels)
    ensures NameFromKey(KeyOf(name, labels)) == name <==> '{' !in name
  {
    NameStops(KeyOf(name, labels));
    if '{' !in name {
      var rest := if labels == map[] || PartsOf(labels) == [] then "" else "{" + Join(PartsOf(labels), ',') + "}";
      assert KeyOf(name, labels) == name + rest;
      NameBeforeBrace(name, rest);
    }
  }

  lemma PartsInjective(labels: Labels, labels': Labels)
    requires ByteLabels(labels) && ByteLabels(labels') && PartsOf(labels) == PartsOf(labels')
    ensures labels == labels'
  {
    PartsFacts(labels);
    PartsFacts(labels');
    var keys, keys' := SortedKeys(labels.Keys), SortedKeys(labels'.Keys);
    hide Part, PartsOf, SortedKeys, Bytes;
    forall i | 0 <= i < |keys|
      ensures keys[i] == keys'[i] && labels[keys[i]] == labels'[keys[i]]
    {
      PartInjective(keys[i], labels[keys[i]], keys'[i], labels'[keys'[i]]);
    }
    SameLabels(labels, labels', keys, keys');
  }

  lemma SameLabels(labels: Labels, labels': Labels, keys: seq<string>, keys': seq<string>)
    requires forall k :: k in keys <==> k in labels
    requires forall k :: k in keys' <==> k in labels'
    requires |keys| == |keys'|
    requires forall i :: 0 <= i < |keys| ==>
               keys[i] == keys'[i] && keys[i] in labels && keys[i] in labels' && labels[keys[i]] == labels'[keys[i]]
    ensures labels == labels'
  {
    assert keys == keys';
    forall k | k in labels
      ensures k in labels' && labels[k] == labels'[k]
    {
      var i :| 0 <= i < |keys| && keys[i] == k;
    }
  }

  /** The list of parts inside the braces. */
  ghost function Inside(labels: Labels): string
    requires PartsOf(labels) != []
  {
    Join(PartsOf(labels), ',')
  }

  lemma {:induction false} JoinLacks(parts: seq<string>, c: char)
    requires parts != [] && Lacks(parts, c) && c != ','
    ensures c !in Join(parts, ',')
  {
    if |parts| > 1 { JoinLacks(parts[1..], c); }
  }

  lemma PartLacksBrace(k: string, v: string)
    ensures '{' !in Part(k, v)
  {
    QueryEscapePlain(k);
    QueryEscapePlain(v);
    hide QueryEscape;
  }

  lemma PartsLackBrace(labels: Labels)
    ensures Lacks(PartsOf(labels), '{')
  {
    PartsFacts(labels);
    var parts, keys := PartsOf(labels), SortedKeys(labels.Keys);
    hide Part, PartsOf, SortedKeys;
    forall i | 0 <= i < |parts|
      ensures '{' !in parts[i]
    {
      PartLacksBrace(keys[i], labels[keys[i]]);
    }
  }

  lemma LabelledShape(name: string, labels: Labels)
    requires labels != map[]
    ensures PartsOf(labels) != [] && KeyOf(name, labels) == name + "{" + Inside(labels) + "}"
  {
    PartsFacts(labels);
    hide Parts, SortedKeys, Part;
  }

  /** A key with labels is the name, a brace, text without an opening brace, and a brace. */
  lemma LabelledKey(name: string, labels: Labels)
    requires labels != map[]
    ensures PartsOf(labels) != [] && KeyOf(name, labels) == name + ("{" + Inside(labels) + "}") && '{' !in Inside(labels)
  {
    LabelledShape(name, labels);
    hide PartsOf, KeyOf;
    PartsLackBrace(labels);
    JoinLacks(PartsOf(labels), '{');
    hide Inside;
    assert name + "{" + Inside(labels) + "}" == name + ("{" + Inside(labels) + "}");
  }

  /** The last opening brace tells the name from the rest. */
  lemma LastBrace(a: string, b: string, a': string, b': string)
    requires '{' !in b && '{' !in b' && a + ("{" + b + "}") == a' + ("{" + b' + "}")
    ensures a == a' && b == b'
  {
    var s := a + ("{" + b + "}");
    assert s[|a|] == '{' && s[|a'|] == '{';
    forall k | |a| < k < |s|
      ensures s[k] != '{'
    {
      assert s[k] == ("{" + b + "}")[k - |a|];
    }
    forall k | |a'| < k < |s|
      ensures s[k] != '{'
    {
      assert s[k] == ("{" + b' + "}")[k - |a'|];
    }
    assert |a| == |a'|;
    assert a == s[..|a|] && a' == s[..|a'|];
    assert b == s[|a| + 1..|s| - 1] && b' == s[|a'| + 1..|s| - 1];
  }

  /** Labelled metrics never share a key, whatever their names. */
  lemma LabelledKeysDiffer(name: string, labels: Labels, name': string, labels': Labels)
    requires labels != map[] && labels' != map[] && ByteLabels(labels) && ByteLabels(labels')
    requires KeyOf(name, labels) == KeyOf(name', labels')
    ensures name == name' && labels == labels'
  {
    LabelledKey(name, labels);
    LabelledKey(name', labels');
    PartsFacts(labels);
    PartsFacts(labels');
    hide KeyOf, PartsOf;
    LastBrace(name, Inside(labels), name', Inside(labels'));
    JoinSplits(PartsOf(labels), ',');
    JoinSplits(PartsOf(labels'), ',');
    PartsInjective(labels, labels');
  }

  /** The first metric is unlabelled, and its name is the second's key. */
  ghost predicate Shadows(name: string, labels: Labels, name': string, labels': Labels) {
    labels == map[] && labels' != map[] && name == KeyOf(name', labels')
  }

  /**
    Two metrics share a key exactly if they are the same, or one of them is
    unlabelled and has the other's key for a name.
   */
  lemma KeysMeet(name: string, labels: Labels, name': string, labels': Labels)
    requires ByteLabels(labels) && ByteLabels(labels')
    ensures KeyOf(name, labels) == KeyOf(name', labels') <==>
              || (name == name' && labels == labels')
              || Shadows(name, labels, name', labels') || Shadows(name', labels', name, labels)
  {
    hide ByteLabels;
    if labels != map[] && labels' != map[] && KeyOf(name, labels) == KeyOf(name', labels') {
      LabelledKeysDiffer(name, labels, name', labels');
    }
  }

  /** A name that has no opening brace, or does not end in a closing one, shadows nothing. */
  lemma PlainNamesShadowNothing(name: string, name': string, labels': Labels)
    requires '{' !in name || name == [] || name[|name| - 1] != '}'
    ensures !Shadows(name, map[], name', labels')
  {
    if labels' != map[] {
      LabelledKey(name', labels');
      var key := KeyOf(name', labels');
      assert key[|name'|] == '{' && key[|key| - 1] == '}';
    }
  }

  /** With a brace in a name two different metrics can meet under one key. */
  lemma BracedNamesCollide()
    ensures KeyOf("a{b=c}", map[]) == KeyOf("a", map["b" := "c"])
  {
    var labels := map["b" := "c"];
    SortLists(labels.Keys, ["b"]);
    assert Sort(["b"]) == ["b"];
    var keys := SortedKeys(labels.Keys);
    assert keys[..0] == [] && Parts([], labels) == [];
    assert QueryEscape("b") == "b" && QueryEscape("c") == "c" by {
      assert "b"[1..] == "" && "c"[1..] == "";
    }
    assert Parts(keys, labels) == [Part("b", "c")];
  }

  // ------------------------------------------------------------------ what escapes mean

  predicate Hex(c: char) {
    '0' <= c <= '9' || 'A' <= c <= 'F'
  }

  function HexValue(c: char): (n: int)
    ensures Hex(c) ==> 0 <= n < 16
  {
    if '0' <= c <= '9' then c as int - '0' as int else c as int - 'A' as int + 10
  }

  /** How a query is read: a plus sign is a blank, a percent sign starts the number of a byte. */
  function Unescaped(s: string): string
    decreases |s|
  {
    if s == [] then []
    else if s[0] == '+' then [' '] + Unescaped(s[1..])
    else if s[0] == '%' && |s| >= 3 && Hex(s[1]) && Hex(s[2]) then
      [(HexValue(s[1]) * 16 + HexValue(s[2])) as char] + Unescaped(s[3..])
    else [s[0]] + Unescaped(s[1..])
  }

  /** Letters, digits and four signs stand for themselves, a blank is one sign, every other byte takes three. */
  predicate Single(c: char) {
    'a' <= c <= 'z' || 'A' <= c <= 'Z' || '0' <= c <= '9' || c in {'-', '_', '.', '~', ' '}
  }

  function EscapedLength(s: string): nat {
    if s == [] then 0 else (if Single(s[0]) then 1 else 3) + EscapedLength(s[1..])
  }

  lemma EscapeCharReads(c: char, rest: string)
    requires IsByte(c)
    ensures Unescaped(EscapeChar(c) + rest) == [c] + Unescaped(rest)
    ensures |EscapeChar(c)| == if Single(c) then 1 else 3
  {
    hide Unescaped;
    if Unreserved(c) {
      PlainReads(c, rest);
    } else if c == ' ' {
      BlankReads(rest);
    } else {
      HexReads(c as int / 16);
      HexReads(c as int % 16);
      hide HexDigit;
      PercentReads(HexDigit(c as int / 16), HexDigit(c as int % 16), rest);
      assert c as int == c as int / 16 * 16 + c as int % 16;
    }
  }

  lemma PlainReads(c: char, rest: string)
    requires Unreserved(c)
    ensures Unescaped([c] + rest) == [c] + Unescaped(rest)
  {
    assert ([c] + rest)[1..] == rest;
  }

  lemma BlankReads(rest: string)
    ensures Unescaped("+" + rest) == [' '] + Unescaped(rest)
  {
    assert ("+" + rest)[1..] == rest;
  }

  lemma PercentReads(a: char, b: char, rest: string)
    requires Hex(a) && Hex(b)
    ensures Unescaped(['%', a, b] + rest) == [(HexValue(a) * 16 + HexValue(b)) as char] + Unescaped(rest)
  {
    assert (['%', a, b] + rest)[3..] == rest;
    hide HexValue;
  }

  lemma HexReads(n: nat)
    requires n < 16
    ensures Hex(HexDigit(n)) && HexValue(HexDigit(n)) == n
  {
  }

  /** An escaped text reads back, and escapes no more than it must. */
  lemma {:induction false} QueryEscapeReads(s: string)
    requires Bytes(s)
    ensures Unescaped(QueryEscape(s)) == s && |QueryEscape(s)| == EscapedLength(s)
  {
    if s != [] {
      QueryEscapeReads(s[1..]);
      EscapeCharReads(s[0], QueryEscape(s[1..]));
      hide EscapeChar, Unescaped, Single;
      assert s == [s[0]] + s[1..];
    }
  }
}
