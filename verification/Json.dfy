/** The JSON values, printer and parser behind every security binding: Python's
    json.dumps with sorted keys, compact separators and raw non-ASCII text, and
    json.loads for the whole grammar of RFC 8259 sections 2 to 7. */
module Json {
  import opened Domain
  import opened TextOrder

  // A dict is its insertion-ordered sequence of members.
  datatype Json =
    | Null | Bool(b: bool) | Int(i: int) | Float(text: string) | Str(s: string)
    | Arr(items: seq<Json>) | Obj(members: seq<(string, Json)>)

  const MAX_DEPTH := 64

  // ---------- well-formed values ----------

  predicate DistinctKeys<T>(ms: seq<(string, T)>) {
    forall i, j :: 0 <= i < j < |ms| ==> ms[i].0 != ms[j].0
  }

  predicate WellFormed(v: Json)
    decreases v
  {
    match v
    case Arr(items) => forall i :: 0 <= i < |items| ==> WellFormed(items[i])
    case Obj(ms) => DistinctKeys(ms) && forall i :: 0 <= i < |ms| ==> WellFormed(ms[i].1)
    case _ => true
  }

  predicate NoFloats(v: Json)
    decreases v
  {
    match v
    case Float(_) => false
    case Arr(items) => forall i :: 0 <= i < |items| ==> NoFloats(items[i])
    case Obj(ms) => forall i :: 0 <= i < |ms| ==> NoFloats(ms[i].1)
    case _ => true
  }

  // Nested within the bound, counted as the normalizer counts it.
  predicate Shallow(v: Json, depth: nat)
    decreases v
  {
    depth <= MAX_DEPTH &&
    match v
    case Arr(items) => forall i :: 0 <= i < |items| ==> Shallow(items[i], depth + 1)
    case Obj(ms) => forall i :: 0 <= i < |ms| ==> Shallow(ms[i].1, depth + 1)
    case _ => true
  }

  // What the printer can emit.
  predicate Printable(v: Json) { WellFormed(v) && NoFloats(v) && Shallow(v, 0) }

  // ---------- sorting members ----------

  function InsertMember<T>(m: (string, T), ms: seq<(string, T)>): seq<(string, T)> {
    if ms == [] || Leq(m.0, ms[0].0) then [m] + ms else [ms[0]] + InsertMember(m, ms[1..])
  }

  // sorted(items, key): the order json.dumps emits object members in.
  function SortMembers<T>(ms: seq<(string, T)>): seq<(string, T)> {
    if ms == [] then [] else InsertMember(ms[0], SortMembers(ms[1..]))
  }

  // ---------- the printer ----------

  function Digit(n: nat): char
    requires n < 10
  {
    '0' + n as char
  }

  function Decimal(n: nat): string {
    if n < 10 then [Digit(n)] else Decimal(n / 10) + [Digit(n % 10)]
  }

  function PrintInt(i: int): string {
    if i < 0 then "-" + Decimal(-i) else Decimal(i)
  }

  function HexDigit(n: nat): char
    requires n < 16
  {
    if n < 10 then '0' + n as char else 'a' + (n - 10) as char
  }

  // RFC 8259 section 7, with the short escapes where they exist.
  function Escape(c: char): string {
    if c == '"' then ['\\', '"']
    else if c == '\\' then ['\\', '\\']
    else if c == '\n' then ['\\', 'n']
    else if c == '\r' then ['\\', 'r']
    else if c == '\t' then ['\\', 't']
    else if c as int == 8 then ['\\', 'b']
    else if c as int == 12 then ['\\', 'f']
    else if c as int < 32 then
      ['\\', 'u', '0', '0', HexDigit((c as int) / 16), HexDigit((c as int) % 16)]
    else [c]
  }

  function EscapeAll(s: string): string {
    if s == [] then [] else Escape(s[0]) + EscapeAll(s[1..])
  }

  function Quote(s: string): string { ['"'] + EscapeAll(s) + ['"'] }

  // Elements separated by commas.
  function Join(texts: seq<string>): string {
    if texts == [] then [] else if |texts| == 1 then texts[0] else texts[0] + [','] + Join(texts[1..])
  }

  function MemberText(m: (string, string)): string { Quote(m.0) + [':'] + m.1 }

  function MemberTexts(ms: seq<(string, string)>): (r: seq<string>)
    ensures |r| == |ms| && forall i :: 0 <= i < |ms| ==> r[i] == MemberText(ms[i])
  {
    seq(|ms|, i requires 0 <= i < |ms| => MemberText(ms[i]))
  }

  function Print(v: Json): string
    decreases v
  {
    match v
    case Null => "null"
    case Bool(b) => if b then "true" else "false"
    case Int(i) => PrintInt(i)
    case Float(text) => text
    case Str(s) => Quote(s)
    case Arr(items) => ['['] + Join(seq(|items|, i requires 0 <= i < |items| => Print(items[i]))) + [']']
    case Obj(ms) =>
      var printed := seq(|ms|, i requires 0 <= i < |ms| => (ms[i].0, Print(ms[i].1)));
      ['{'] + Join(MemberTexts(SortMembers(printed))) + ['}']
  }

  function PrintItems(items: seq<Json>): (r: seq<string>)
    ensures |r| == |items|
  {
    seq(|items|, i requires 0 <= i < |items| => Print(items[i]))
  }

  function PrintMembers(ms: seq<(string, Json)>): (r: seq<(string, string)>)
    ensures |r| == |ms|
  {
    seq(|ms|, i requires 0 <= i < |ms| => (ms[i].0, Print(ms[i].1)))
  }

  lemma PrintUnfold(v: Json)
    ensures v.Arr? ==> Print(v) == ['['] + Join(PrintItems(v.items)) + [']']
    ensures v.Obj? ==> Print(v) == ['{'] + Join(MemberTexts(SortMembers(PrintMembers(v.members)))) + ['}']
  {
    match v
    case Arr(items) =>
      assert seq(|items|, i requires 0 <= i < |items| => Print(items[i])) == PrintItems(items);
    case Obj(ms) =>
      assert seq(|ms|, i requires 0 <= i < |ms| => (ms[i].0, Print(ms[i].1))) == PrintMembers(ms);
    case _ =>
  }

  // The value a parser sees in printed text: members in sorted order throughout.
  function Canon(v: Json): Json
    decreases v
  {
    match v
    case Arr(items) => Arr(seq(|items|, i requires 0 <= i < |items| => Canon(items[i])))
    case Obj(ms) => Obj(SortMembers(seq(|ms|, i requires 0 <= i < |ms| => (ms[i].0, Canon(ms[i].1)))))
    case _ => v
  }

  function CanonItems(items: seq<Json>): (r: seq<Json>)
    ensures |r| == |items|
  {
    seq(|items|, i requires 0 <= i < |items| => Canon(items[i]))
  }

  function CanonMembers(ms: seq<(string, Json)>): (r: seq<(string, Json)>)
    ensures |r| == |ms|
  {
    seq(|ms|, i requires 0 <= i < |ms| => (ms[i].0, Canon(ms[i].1)))
  }

  lemma CanonUnfold(v: Json)
    ensures v.Arr? ==> Canon(v) == Arr(CanonItems(v.items))
    ensures v.Obj? ==> Canon(v) == Obj(SortMembers(CanonMembers(v.members)))
  {
    match v
    case Arr(items) =>
      assert seq(|items|, i requires 0 <= i < |items| => Canon(items[i])) == CanonItems(items);
    case Obj(ms) =>
      assert seq(|ms|, i requires 0 <= i < |ms| => (ms[i].0, Canon(ms[i].1))) == CanonMembers(ms);
    case _ =>
  }

  // ---------- normalization ----------

  // None where the normalizer raises: floats, and nesting beyond the bound.
  function Normalize(v: Json, depth: nat): Option<Json>
    decreases v
  {
    if depth > MAX_DEPTH then None else
    match v
    case Float(_) => None
    case Arr(items) =>
      if exists i :: 0 <= i < |items| && Normalize(items[i], depth + 1).None? then None else
      Some(Arr(seq(|items|, i requires 0 <= i < |items| && Normalize(items[i], depth + 1).Some? =>
                              Normalize(items[i], depth + 1).value)))
    case Obj(ms) =>
      if exists i :: 0 <= i < |ms| && Normalize(ms[i].1, depth + 1).None? then None else
      Some(Obj(seq(|ms|, i requires 0 <= i < |ms| && Normalize(ms[i].1, depth + 1).Some? =>
                           (ms[i].0, Normalize(ms[i].1, depth + 1).value))))
    case _ => Some(v)
  }

  /** The normalizer accepts exactly the float-free values within the depth bound,
      and changes none of them. */
  lemma {:induction false} NormalizeExact(v: Json, depth: nat)
    ensures Normalize(v, depth).Some? <==> NoFloats(v) && Shallow(v, depth)
    ensures Normalize(v, depth).Some? ==> Normalize(v, depth).value == v
    decreases v
  {
    if depth <= MAX_DEPTH {
      match v
      case Arr(items) =>
        forall i | 0 <= i < |items|
          ensures Normalize(items[i], depth + 1).Some? <==> NoFloats(items[i]) && Shallow(items[i], depth + 1)
          ensures Normalize(items[i], depth + 1).Some? ==> Normalize(items[i], depth + 1).value == items[i]
        {
          NormalizeExact(items[i], depth + 1);
        }
        if Normalize(v, depth).Some? { assert Normalize(v, depth).value.items == items; }
      case Obj(ms) =>
        forall i | 0 <= i < |ms|
          ensures Normalize(ms[i].1, depth + 1).Some? <==> NoFloats(ms[i].1) && Shallow(ms[i].1, depth + 1)
          ensures Normalize(ms[i].1, depth + 1).Some? ==> Normalize(ms[i].1, depth + 1).value == ms[i].1
        {
          NormalizeExact(ms[i].1, depth + 1);
        }
        if Normalize(v, depth).Some? { assert Normalize(v, depth).value.members == ms; }
      case _ =>
    }
  }

  // A value nested n levels deep.
  function Nested(n: nat): Json { if n == 0 then Null else Arr([Nested(n - 1)]) }

  /** Sixty-four levels below the outermost are accepted, and no more. */
  lemma DepthExact(n: nat, depth: nat)
    ensures Normalize(Nested(n), depth).Some? <==> depth + n <= 64
  {
    NormalizeExact(Nested(n), depth);
    NestedShape(n, depth);
  }

  lemma {:induction false} NestedShape(n: nat, depth: nat)
    ensures NoFloats(Nested(n)) && (Shallow(Nested(n), depth) <==> depth + n <= MAX_DEPTH)
    decreases n
  {
    if n > 0 {
      NestedShape(n - 1, depth + 1);
      var v := Nested(n);
      assert v == Arr([Nested(n - 1)]);
      assert Shallow(v, depth) ==> Shallow(v.items[0], depth + 1);
    }
  }

  // canonical_json_text
  function CanonicalText(v: Json): Option<string> {
    var n := Normalize(v, 0);
    if n.None? then None else Some(Print(n.value))
  }

  // ---------- the parser ----------

  predicate IsSpace(c: char) { c == ' ' || c == '\t' || c == '\n' || c == '\r' }

  function SkipSpace(s: string): (r: string)
    ensures |r| <= |s|
  {
    if s != [] && IsSpace(s[0]) then SkipSpace(s[1..]) else s
  }

  predicate IsDigit(c: char) { '0' <= c <= '9' }

  // Length of the longest prefix of digits.
  function DigitRun(s: string): (n: nat)
    ensures n <= |s|
    ensures forall i :: 0 <= i < n ==> IsDigit(s[i])
    ensures n < |s| ==> !IsDigit(s[n])
  {
    if s != [] && IsDigit(s[0]) then 1 + DigitRun(s[1..]) else 0
  }

  function DigitValue(c: char): nat
    requires IsDigit(c)
  {
    c as int - '0' as int
  }

  function ToNat(s: string): nat
    requires forall i :: 0 <= i < |s| ==> IsDigit(s[i])
  {
    if s == [] then 0 else 10 * ToNat(s[..|s| - 1]) + DigitValue(s[|s| - 1])
  }

  // Length of a fraction part at the front of s, 0 if there is none.
  function FractionRun(s: string): (n: nat)
    ensures n <= |s|
  {
    if |s| >= 2 && s[0] == '.' && IsDigit(s[1]) then 1 + DigitRun(s[1..]) else 0
  }

  function ExponentRun(s: string): (n: nat)
    ensures n <= |s|
  {
    if s == [] || (s[0] != 'e' && s[0] != 'E') then 0 else
    var sign := if |s| >= 2 && (s[1] == '+' || s[1] == '-') then 1 else 0;
    var digits := DigitRun(s[1 + sign..]);
    if digits == 0 then 0 else 1 + sign + digits
  }

  // The integer digits at the front of s: a single zero, or a run without leading zero.
  function IntegerRun(s: string): (n: nat)
    ensures n <= |s|
    ensures forall i :: 0 <= i < n ==> IsDigit(s[i])
  {
    if s != [] && s[0] == '0' then 1 else DigitRun(s)
  }

  function ParseNumber(s: string): (r: Option<(Json, string)>)
    ensures r.Some? ==> |r.value.1| < |s| && WellFormed(r.value.0)
  {
    var sign := if s != [] && s[0] == '-' then 1 else 0;
    var body := s[sign..];
    var n := IntegerRun(body);
    if n == 0 then None else
    var tail := body[n..];
    var f := FractionRun(tail);
    var e := ExponentRun(tail[f..]);
    if f + e > 0 then Some((Float(s[..sign + n + f + e]), tail[f + e..])) else
    var magnitude: int := ToNat(body[..n]);
    Some((Int(if sign == 1 then 0 - magnitude else magnitude), tail))
  }

  function HexValue(c: char): Option<nat> {
    if '0' <= c <= '9' then Some(c as int - '0' as int)
    else if 'a' <= c <= 'f' then Some(c as int - 'a' as int + 10)
    else if 'A' <= c <= 'F' then Some(c as int - 'A' as int + 10)
    else None
  }

  // Four hexadecimal digits at the front of s.
  function Hex4(s: string): (r: Option<nat>)
    ensures r.Some? ==> |s| >= 4 && r.value < 0x1_0000
  {
    if |s| < 4 then None else
    var (a, b, c, d) := (HexValue(s[0]), HexValue(s[1]), HexValue(s[2]), HexValue(s[3]));
    if a.None? || b.None? || c.None? || d.None? then None
    else if a.value < 16 && b.value < 16 && c.value < 16 && d.value < 16
    then Some(0x1000 * a.value + 0x100 * b.value + 0x10 * c.value + d.value)
    else None
  }

  // One \u escape, the front of s being what follows the "u"; a pair of surrogates is
  // one character, and a lone surrogate is refused because it has no UTF-8 form.
  function ParseUnicode(s: string): (r: Option<(char, string)>)
    ensures r.Some? ==> |r.value.1| < |s|
  {
    var h := Hex4(s);
    if h.None? then None
    else if h.value < 0xD800 || h.value >= 0xE000 then Some((h.value as char, s[4..]))
    else if h.value < 0xDC00 && |s| >= 6 && s[4] == '\\' && s[5] == 'u' then
      var l := Hex4(s[6..]);
      if l.Some? && 0xDC00 <= l.value < 0xE000
      then Some(((0x1_0000 + 0x400 * (h.value - 0xD800) + (l.value - 0xDC00)) as char, s[10..]))
      else None
    else None
  }

  // The characters of a string up to its closing quote.
  function ParseChars(s: string): (r: Option<(string, string)>)
    ensures r.Some? ==> |r.value.1| < |s|
    decreases |s|
  {
    if s == [] then None
    else if s[0] == '"' then Some(([], s[1..]))
    else if s[0] as int < 32 then None
    else if s[0] != '\\' then
      var rest := ParseChars(s[1..]);
      if rest.None? then None else Some(([s[0]] + rest.value.0, rest.value.1))
    else if |s| < 2 then None
    else if s[1] == 'u' then
      var c := ParseUnicode(s[2..]);
      if c.None? then None else
      var rest := ParseChars(c.value.1);
      if rest.None? then None else Some(([c.value.0] + rest.value.0, rest.value.1))
    else
      var c := Unescape(s[1]);
      if c.None? then None else
      var rest := ParseChars(s[2..]);
      if rest.None? then None else Some(([c.value] + rest.value.0, rest.value.1))
  }

  function Unescape(c: char): Option<char> {
    if c == '"' || c == '\\' || c == '/' then Some(c)
    else if c == 'b' then Some(8 as char)
    else if c == 'f' then Some(12 as char)
    else if c == 'n' then Some('\n')
    else if c == 'r' then Some('\r')
    else if c == 't' then Some('\t')
    else None
  }

  // dict[key] = value: a repeated key keeps its place and takes the new value.
  function Put(ms: seq<(string, Json)>, key: string, v: Json): (r: seq<(string, Json)>)
    requires DistinctKeys(ms) && (forall i :: 0 <= i < |ms| ==> WellFormed(ms[i].1)) && WellFormed(v)
    ensures DistinctKeys(r) && forall i :: 0 <= i < |r| ==> WellFormed(r[i].1)
    ensures forall i :: 0 <= i < |r| ==> r[i].0 == key || exists j :: 0 <= j < |ms| && ms[j].0 == r[i].0
  {
    if ms == [] then [(key, v)]
    else if ms[0].0 == key then [(key, v)] + ms[1..]
    else
      var rest := Put(ms[1..], key, v);
      [ms[0]] + rest
  }

  predicate StartsWith(s: string, p: string) { |s| >= |p| && s[..|p|] == p }

  function Literal(s: string, p: string, v: Json): (r: Option<(Json, string)>)
    requires p != [] && WellFormed(v)
    ensures r.Some? ==> |r.value.1| < |s| && WellFormed(r.value.0)
  {
    if StartsWith(s, p) then Some((v, s[|p|..])) else None
  }

  // One value at the very front of s, and what follows it.
  function ParseValue(s: string): (r: Option<(Json, string)>)
    ensures r.Some? ==> |r.value.1| < |s| && WellFormed(r.value.0)
    decreases |s|, 0
  {
    if s == [] then None
    else if s[0] == '"' then
      var r := ParseChars(s[1..]);
      if r.None? then None else Some((Str(r.value.0), r.value.1))
    else if s[0] == '[' then
      var t := SkipSpace(s[1..]);
      if t != [] && t[0] == ']' then Some((Arr([]), t[1..]))
      else
        var r := ParseItems(t, []);
        if r.None? then None else Some((Arr(r.value.0), r.value.1))
    else if s[0] == '{' then
      var t := SkipSpace(s[1..]);
      if t != [] && t[0] == '}' then Some((Obj([]), t[1..]))
      else
        var r := ParseMembers(t, []);
        if r.None? then None else Some((Obj(r.value.0), r.value.1))
    else if s[0] == 'n' then Literal(s, "null", Null)
    else if s[0] == 't' then Literal(s, "true", Bool(true))
    else if s[0] == 'f' then Literal(s, "false", Bool(false))
    else if s[0] == 'N' then Literal(s, "NaN", Float("NaN"))
    else if s[0] == 'I' then Literal(s, "Infinity", Float("Infinity"))
    else if s[0] == '-' && |s| > 1 && s[1] == 'I' then Literal(s, "-Infinity", Float("-Infinity"))
    else ParseNumber(s)
  }

  // Elements up to the closing bracket; s starts where an element must start.
  function ParseItems(s: string, done: seq<Json>): (r: Option<(seq<Json>, string)>)
    requires forall i :: 0 <= i < |done| ==> WellFormed(done[i])
    ensures r.Some? ==> |r.value.1| < |s| && forall i :: 0 <= i < |r.value.0| ==> WellFormed(r.value.0[i])
    decreases |s|, 1
  {
    var v := ParseValue(s);
    if v.None? then None else
    var items := done + [v.value.0];
    var t := SkipSpace(v.value.1);
    if t == [] then None
    else if t[0] == ']' then Some((items, t[1..]))
    else if t[0] != ',' then None
    else ParseItems(SkipSpace(t[1..]), items)
  }

  // Members up to the closing brace; s starts where a key must start.
  function ParseMembers(s: string, done: seq<(string, Json)>): (r: Option<(seq<(string, Json)>, string)>)
    requires DistinctKeys(done) && forall i :: 0 <= i < |done| ==> WellFormed(done[i].1)
    ensures r.Some? ==> |r.value.1| < |s| && DistinctKeys(r.value.0) &&
                        forall i :: 0 <= i < |r.value.0| ==> WellFormed(r.value.0[i].1)
    decreases |s|, 1
  {
    if s == [] || s[0] != '"' then None else
    var key := ParseChars(s[1..]);
    if key.None? then None else
    var afterKey := SkipSpace(key.value.1);
    if afterKey == [] || afterKey[0] != ':' then None else
    var v := ParseValue(SkipSpace(afterKey[1..]));
    if v.None? then None else
    var ms := Put(done, key.value.0, v.value.0);
    var t := SkipSpace(v.value.1);
    if t == [] then None
    else if t[0] == '}' then Some((ms, t[1..]))
    else if t[0] != ',' then None
    else ParseMembers(SkipSpace(t[1..]), ms)
  }

  // json.loads
  function Loads(text: string): (r: Option<Json>)
    ensures r.Some? ==> WellFormed(r.value)
  {
    if text != [] && text[0] as int == 0xFEFF then None else
    var v := ParseValue(SkipSpace(text));
    if v.None? || SkipSpace(v.value.1) != [] then None else Some(v.value.0)
  }

  /** require_canonical_json: the parsed value if the text is exactly its own canonical
      form, None where the source raises. */
  function RequireCanonical(text: string): Option<Json> {
    var v := Loads(text);
    if v.None? then None else
    var again := CanonicalText(v.value);
    if again.None? || again.value != text then None else v
  }
}
