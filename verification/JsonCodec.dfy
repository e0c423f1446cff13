/** Round trip and exactness of the canonical JSON codec. */
module JsonCodec {
  import opened Domain
  import opened TextOrder
  import opened Json

  // ---------- numbers ----------

  lemma {:induction false} DecimalDigits(n: nat)
    ensures Decimal(n) != [] && forall i :: 0 <= i < |Decimal(n)| ==> IsDigit(Decimal(n)[i])
    ensures n > 0 ==> Decimal(n)[0] != '0'
    ensures n == 0 ==> Decimal(n) == ['0']
  {
    if n >= 10 { DecimalDigits(n / 10); }
  }

  lemma {:induction false} DecimalValue(n: nat)
    requires forall i :: 0 <= i < |Decimal(n)| ==> IsDigit(Decimal(n)[i])
    ensures ToNat(Decimal(n)) == n
  {
    if n >= 10 {
      DecimalDigits(n / 10);
      DecimalValue(n / 10);
      var d := Decimal(n);
      assert d[..|d| - 1] == Decimal(n / 10) && d[|d| - 1] == Digit(n % 10);
    } else {
      assert Decimal(n)[..0] == [];
    }
  }

  lemma {:induction false} DigitRunOf(p: string, rest: string)
    requires forall i :: 0 <= i < |p| ==> IsDigit(p[i])
    requires rest == [] || !IsDigit(rest[0])
    ensures DigitRun(p + rest) == |p|
  {
    if p == [] {
      assert p + rest == rest;
    } else {
      assert (p + rest)[1..] == p[1..] + rest;
      DigitRunOf(p[1..], rest);
    }
  }

  // What may follow an element inside printed text.
  predicate Follows(rest: string) {
    rest == [] || rest[0] == ',' || rest[0] == ']' || rest[0] == '}' || IsSpace(rest[0])
  }

  lemma IntegerRunOf(n: nat, rest: string)
    requires Follows(rest)
    ensures IntegerRun(Decimal(n) + rest) == |Decimal(n)|
  {
    DecimalDigits(n);
    if n > 0 {
      assert (Decimal(n) + rest)[0] == Decimal(n)[0];
      DigitRunOf(Decimal(n), rest);
    }
  }

  lemma BodyParses(n: nat, rest: string)
    requires Follows(rest)
    ensures var s, k := Decimal(n) + rest, |Decimal(n)|;
            && IntegerRun(s) == k > 0 && s[k..] == rest
            && (forall i :: 0 <= i < k ==> IsDigit(s[..k][i])) && ToNat(s[..k]) == n
            && FractionRun(rest) == 0 && rest[0..] == rest && ExponentRun(rest) == 0
  {
    IntegerRunOf(n, rest);
    DecimalDigits(n);
    DecimalValue(n);
    assert (Decimal(n) + rest)[..|Decimal(n)|] == Decimal(n);
  }

  lemma NaturalParses(n: nat, rest: string)
    requires Follows(rest)
    ensures ParseNumber(Decimal(n) + rest) == Some((Int(n), rest))
    ensures ParseNumber(['-'] + (Decimal(n) + rest)) == Some((Int(0 - n), rest))
  {
    BodyParses(n, rest);
    DecimalDigits(n);
    hide Decimal, FractionRun, ExponentRun, IntegerRun, ToNat, Follows;
    var body := Decimal(n) + rest;
    assert body[0] == Decimal(n)[0] && body[0..] == body && (['-'] + body)[1..] == body;
  }

  lemma NumberParses(i: int, rest: string)
    requires Follows(rest)
    ensures ParseNumber(PrintInt(i) + rest) == Some((Int(i), rest))
  {
    hide Decimal, ParseNumber;
    NaturalParses(if i < 0 then -i else i, rest);
    if i < 0 { assert PrintInt(i) + rest == ['-'] + (Decimal(-i) + rest); }
  }

  // ---------- strings ----------

  lemma HexOfControl(n: nat)
    requires n < 32
    ensures Hex4(['0', '0', HexDigit(n / 16), HexDigit(n % 16)]) == Some(n)
  {
  }

  lemma Hex4Prefix(p: string, rest: string)
    requires |p| == 4
    ensures Hex4(p + rest) == Hex4(p)
  {
  }

  predicate ShortEscape(c: char) {
    c == '"' || c == '\\' || c == '\n' || c == '\r' || c == '\t' || c as int == 8 || c as int == 12
  }

  lemma ShortEscapeParses(c: char, tail: string)
    requires ShortEscape(c) && ParseChars(tail).Some?
    ensures ParseChars(Escape(c) + tail) == Some(([c] + ParseChars(tail).value.0, ParseChars(tail).value.1))
  {
    var s := Escape(c) + tail;
    assert |Escape(c)| == 2 && s[0] == '\\' && s[1] == Escape(c)[1] && s[2..] == tail;
    assert Unescape(s[1]) == Some(c);
  }

  lemma ControlParses(c: char, tail: string)
    requires c as int < 32 && !ShortEscape(c) && ParseChars(tail).Some?
    ensures ParseChars(Escape(c) + tail) == Some(([c] + ParseChars(tail).value.0, ParseChars(tail).value.1))
  {
    var s, n := Escape(c) + tail, c as int;
    var hex := ['0', '0', HexDigit(n / 16), HexDigit(n % 16)];
    assert s[0] == '\\' && s[1] == 'u' && s[2..] == hex + tail && s[2..][4..] == tail;
    HexOfControl(n);
    Hex4Prefix(hex, tail);
    assert ParseUnicode(s[2..]) == Some((c, tail));
  }

  lemma CharParses(c: char, tail: string)
    requires ParseChars(tail).Some?
    ensures ParseChars(Escape(c) + tail) == Some(([c] + ParseChars(tail).value.0, ParseChars(tail).value.1))
  {
    if ShortEscape(c) {
      ShortEscapeParses(c, tail);
    } else if c as int < 32 {
      ControlParses(c, tail);
    } else {
      assert Escape(c) == [c] && (Escape(c) + tail)[1..] == tail;
    }
  }

  lemma {:induction false} CharsParse(t: string, rest: string)
    ensures ParseChars(EscapeAll(t) + ['"'] + rest) == Some((t, rest))
  {
    if t == [] {
      assert (EscapeAll(t) + ['"'] + rest)[1..] == rest;
    } else {
      var tail := EscapeAll(t[1..]) + ['"'] + rest;
      CharsParse(t[1..], rest);
      CharParses(t[0], tail);
      assert EscapeAll(t) + ['"'] + rest == Escape(t[0]) + tail;
      assert t == [t[0]] + t[1..];
    }
  }

  // A quoted string at the front of s, after its opening quote.
  lemma QuoteParses(t: string, rest: string)
    ensures (Quote(t) + rest)[0] == '"'
    ensures ParseChars((Quote(t) + rest)[1..]) == Some((t, rest))
  {
    hide ParseChars, EscapeAll;
    CharsParse(t, rest);
    assert (Quote(t) + rest)[1..] == EscapeAll(t) + ['"'] + rest;
  }

  // ---------- texts that parse to a value ----------

  ghost predicate ParsesTo(text: string, v: Json) {
    forall rest :: Follows(rest) ==> ParseValue(text + rest) == Some((v, rest))
  }

  // ... and whose first character is not taken for space or for an end.
  predicate Leads(text: string) {
    text != [] && !IsSpace(text[0]) && text[0] != ']' && text[0] != '}' && text[0] as int != 0xFEFF
  }

  ghost predicate Reads(text: string, v: Json) { Leads(text) && ParsesTo(text, v) && WellFormed(v) }

  // ParseValue on a text that starts like a number.
  lemma DigitBranch(s: string)
    requires s != [] && IsDigit(s[0])
    ensures ParseValue(s) == ParseNumber(s)
  {
    hide ParseNumber, ParseChars, ParseItems, ParseMembers, Literal, SkipSpace;
  }

  lemma MinusBranch(s: string)
    requires s != [] && s[0] == '-' && |s| > 1 && IsDigit(s[1])
    ensures ParseValue(s) == ParseNumber(s)
  {
    hide ParseNumber, ParseChars, ParseItems, ParseMembers, Literal, SkipSpace;
  }

  lemma IntLeads(i: int)
    ensures Leads(PrintInt(i))
    ensures if i < 0 then PrintInt(i)[0] == '-' && |PrintInt(i)| > 1 && IsDigit(PrintInt(i)[1])
            else IsDigit(PrintInt(i)[0])
  {
    var n: nat := if i < 0 then -i else i;
    DecimalDigits(n);
    if i < 0 { assert PrintInt(i)[1] == Decimal(n)[0]; }
  }

  lemma IntReads(i: int)
    ensures Reads(PrintInt(i), Int(i))
  {
    IntLeads(i);
    forall rest | Follows(rest) ensures ParseValue(PrintInt(i) + rest) == Some((Int(i), rest)) {
      var s := PrintInt(i) + rest;
      NumberParses(i, rest);
      assert s[0] == PrintInt(i)[0];
      if i < 0 {
        assert s[1] == PrintInt(i)[1];
        MinusBranch(s);
      } else {
        DigitBranch(s);
      }
    }
  }

  lemma StringReads(t: string)
    ensures Reads(Quote(t), Str(t))
  {
    forall rest | Follows(rest) ensures ParseValue(Quote(t) + rest) == Some((Str(t), rest)) {
      QuoteParses(t, rest);
    }
  }

  lemma LiteralReads(text: string, v: Json)
    requires (text == "null" && v == Null) || (text == "true" && v == Bool(true)) ||
             (text == "false" && v == Bool(false))
    ensures Reads(text, v)
  {
    forall rest | Follows(rest) ensures ParseValue(text + rest) == Some((v, rest)) {
      assert (text + rest)[..|text|] == text && (text + rest)[|text|..] == rest;
    }
  }

  // ---------- arrays ----------

  lemma JoinLeads(texts: seq<string>)
    requires texts != [] && Leads(texts[0])
    ensures Join(texts) != [] && Join(texts)[0] == texts[0][0]
  {
  }

  lemma SkipNothing(s: string)
    requires s != [] && !IsSpace(s[0])
    ensures SkipSpace(s) == s
  {
  }

  lemma ItemStep(s: string, done: seq<Json>, v: Json, after: string)
    requires ParseValue(s) == Some((v, after)) && after != [] && !IsSpace(after[0])
    requires forall i :: 0 <= i < |done| ==> WellFormed(done[i])
    ensures WellFormed(v)
    ensures after[0] == ']' ==> ParseItems(s, done) == Some((done + [v], after[1..]))
    ensures after[0] == ',' ==> ParseItems(s, done) == ParseItems(SkipSpace(after[1..]), done + [v])
  {
    SkipNothing(after);
  }

  lemma ReadsAt(text: string, v: Json, after: string)
    requires Reads(text, v) && Follows(after)
    ensures ParseValue(text + after) == Some((v, after))
  {
  }

  ghost predicate AllRead(texts: seq<string>, vals: seq<Json>) {
    |texts| == |vals| && forall i :: 0 <= i < |texts| ==> Reads(texts[i], vals[i])
  }

  // The first element of printed items, followed by `after`.
  lemma FirstItem(texts: seq<string>, vals: seq<Json>, done: seq<Json>, after: string)
    requires texts != [] && AllRead(texts, vals)
    requires forall i :: 0 <= i < |done| ==> WellFormed(done[i])
    requires after != [] && (after[0] == ']' || after[0] == ',')
    ensures forall i :: 0 <= i < |done + [vals[0]]| ==> WellFormed((done + [vals[0]])[i])
    ensures after[0] == ']' ==> ParseItems(texts[0] + after, done) == Some((done + [vals[0]], after[1..]))
    ensures after[0] == ',' ==>
              ParseItems(texts[0] + after, done) == ParseItems(SkipSpace(after[1..]), done + [vals[0]])
  {
    ReadsAt(texts[0], vals[0], after);
    ItemStep(texts[0] + after, done, vals[0], after);
  }

  // Reading one element of several leaves the others to be read.
  lemma ItemsAdvance(texts: seq<string>, vals: seq<Json>, done: seq<Json>, rest: string)
    requires |texts| > 1 && AllRead(texts, vals)
    requires forall i :: 0 <= i < |done| ==> WellFormed(done[i])
    ensures forall i :: 0 <= i < |done + [vals[0]]| ==> WellFormed((done + [vals[0]])[i])
    ensures ParseItems(Join(texts) + [']'] + rest, done) ==
            ParseItems(Join(texts[1..]) + [']'] + rest, done + [vals[0]])
  {
    hide ParseItems, AllRead, WellFormed;
    var next := Join(texts[1..]) + [']'] + rest;
    var after := [','] + next;
    assert Join(texts) + [']'] + rest == texts[0] + after;
    FirstItem(texts, vals, done, after);
    TailRead(texts, vals);
    assert after[1..] == next;
    SkipNothing(next);
  }

  lemma LastItem(text: string, v: Json, done: seq<Json>, rest: string)
    requires AllRead([text], [v])
    requires forall i :: 0 <= i < |done| ==> WellFormed(done[i])
    ensures ParseItems(Join([text]) + [']'] + rest, done) == Some((done + [v], rest))
  {
    hide ParseItems, WellFormed, AllRead;
    var after := [']'] + rest;
    assert Join([text]) + [']'] + rest == text + after;
    FirstItem([text], [v], done, after);
    assert after[1..] == rest;
  }

  lemma {:induction false} ItemsParse(texts: seq<string>, vals: seq<Json>, done: seq<Json>, rest: string)
    requires texts != [] && AllRead(texts, vals)
    requires forall i :: 0 <= i < |done| ==> WellFormed(done[i])
    ensures ParseItems(Join(texts) + [']'] + rest, done) == Some((done + vals, rest))
    decreases texts
  {
    hide ParseItems, WellFormed, Reads, Join;
    if |texts| == 1 {
      assert texts == [texts[0]] && vals == [vals[0]];
      LastItem(texts[0], vals[0], done, rest);
    } else {
      ItemsAdvance(texts, vals, done, rest);
      TailRead(texts, vals);
      ItemsParse(texts[1..], vals[1..], done + [vals[0]], rest);
      assert done + [vals[0]] + vals[1..] == done + vals;
    }
  }

  lemma TailRead(texts: seq<string>, vals: seq<Json>)
    requires |texts| > 1 && AllRead(texts, vals)
    ensures AllRead(texts[1..], vals[1..])
    ensures var j := Join(texts[1..]); j != [] && !IsSpace(j[0])
  {
    assert Reads(texts[1], vals[1]);
    JoinLeads(texts[1..]);
  }

  lemma ArrayStep(s: string, t: string)
    requires s != [] && s[0] == '[' && s[1..] == t && t != [] && !IsSpace(t[0])
    ensures t[0] == ']' ==> ParseValue(s) == Some((Arr([]), t[1..]))
    ensures t[0] != ']' && ParseItems(t, []).Some? ==>
              ParseValue(s) == Some((Arr(ParseItems(t, []).value.0), ParseItems(t, []).value.1))
  {
    SkipNothing(t);
  }

  lemma ArrayParses(texts: seq<string>, vals: seq<Json>, rest: string)
    requires AllRead(texts, vals)
    ensures ParseValue(['['] + Join(texts) + [']'] + rest) == Some((Arr(vals), rest))
  {
    var t := Join(texts) + [']'] + rest;
    var s := ['['] + Join(texts) + [']'] + rest;
    assert s[1..] == t;
    if texts == [] {
      assert t == [']'] + rest && t[1..] == rest;
      ArrayStep(s, t);
    } else {
      assert Reads(texts[0], vals[0]);
      JoinLeads(texts);
      ArrayStep(s, t);
      assert [] + vals == vals;
      ItemsParse(texts, vals, [], rest);
    }
  }

  lemma ArrayReads(items: seq<Json>)
    requires forall i :: 0 <= i < |items| ==> Reads(Print(items[i]), Canon(items[i]))
    ensures Reads(Print(Arr(items)), Canon(Arr(items)))
  {
    PrintUnfold(Arr(items));
    CanonUnfold(Arr(items));
    var texts, vals := PrintItems(items), CanonItems(items);
    assert AllRead(texts, vals);
    forall i | 0 <= i < |vals| ensures WellFormed(vals[i]) { assert Reads(texts[i], vals[i]); }
    forall rest | Follows(rest)
      ensures ParseValue(Print(Arr(items)) + rest) == Some((Canon(Arr(items)), rest))
    {
      ArrayParses(texts, vals, rest);
    }
  }

  // ---------- objects ----------

  ghost predicate Parallel(ps: seq<(string, string)>, cs: seq<(string, Json)>) {
    |ps| == |cs| && forall i :: 0 <= i < |ps| ==> ps[i].0 == cs[i].0 && Reads(ps[i].1, cs[i].1)
  }

  lemma {:induction false} ParallelInsert(p: (string, string), c: (string, Json),
                                          ps: seq<(string, string)>, cs: seq<(string, Json)>)
    requires p.0 == c.0 && Reads(p.1, c.1) && Parallel(ps, cs)
    ensures Parallel(InsertMember(p, ps), InsertMember(c, cs))
    decreases ps
  {
    if ps != [] && !Leq(p.0, ps[0].0) { ParallelInsert(p, c, ps[1..], cs[1..]); }
  }

  lemma {:induction false} ParallelSort(ps: seq<(string, string)>, cs: seq<(string, Json)>)
    requires Parallel(ps, cs)
    ensures Parallel(SortMembers(ps), SortMembers(cs))
    decreases ps
  {
    if ps != [] {
      ParallelSort(ps[1..], cs[1..]);
      ParallelInsert(ps[0], cs[0], SortMembers(ps[1..]), SortMembers(cs[1..]));
    }
  }

  lemma {:induction false} PutNew(ms: seq<(string, Json)>, key: string, v: Json)
    requires DistinctKeys(ms) && (forall i :: 0 <= i < |ms| ==> WellFormed(ms[i].1)) && WellFormed(v)
    requires forall i :: 0 <= i < |ms| ==> ms[i].0 != key
    ensures Put(ms, key, v) == ms + [(key, v)]
  {
    if ms != [] {
      PutNew(ms[1..], key, v);
      assert ms + [(key, v)] == [ms[0]] + (ms[1..] + [(key, v)]);
    }
  }

  lemma KeyParses(p: (string, string), after: string)
    ensures var s := MemberText(p) + after;
            s != [] && s[0] == '"' && ParseChars(s[1..]) == Some((p.0, [':'] + p.1 + after))
  {
    QuoteParses(p.0, [':'] + p.1 + after);
    assert MemberText(p) + after == Quote(p.0) + ([':'] + p.1 + after);
  }

  lemma ColonSkips(text: string, after: string)
    requires Leads(text)
    ensures var colon := [':'] + text + after;
            colon[0] == ':' && SkipSpace(colon) == colon && SkipSpace(colon[1..]) == text + after
  {
    var colon := [':'] + text + after;
    assert colon[1..] == text + after;
    SkipNothing(colon);
    SkipNothing(text + after);
  }

  lemma MemberStep(p: (string, string), c: (string, Json), done: seq<(string, Json)>, after: string)
    requires p.0 == c.0 && Reads(p.1, c.1) && after != [] && (after[0] == ',' || after[0] == '}')
    requires DistinctKeys(done) && (forall i :: 0 <= i < |done| ==> WellFormed(done[i].1))
    requires forall i :: 0 <= i < |done| ==> done[i].0 != c.0
    ensures DistinctKeys(done + [c]) && forall i :: 0 <= i < |done + [c]| ==> WellFormed((done + [c])[i].1)
    ensures after[0] == '}' ==> ParseMembers(MemberText(p) + after, done) == Some((done + [c], after[1..]))
    ensures after[0] == ',' ==>
              ParseMembers(MemberText(p) + after, done) == ParseMembers(SkipSpace(after[1..]), done + [c])
  {
    KeyParses(p, after);
    ColonSkips(p.1, after);
    ReadsAt(p.1, c.1, after);
    PutNew(done, c.0, c.1);
    SkipNothing(after);
    assert (c.0, c.1) == c;
  }

  // Reading one member of several leaves the others to be read.
  lemma MembersAdvance(ps: seq<(string, string)>, cs: seq<(string, Json)>,
                       done: seq<(string, Json)>, rest: string)
    requires |ps| > 1 && Parallel(ps, cs) && DistinctKeys(done)
    requires forall i :: 0 <= i < |done| ==> WellFormed(done[i].1) && done[i].0 != cs[0].0
    ensures DistinctKeys(done + [cs[0]])
    ensures forall i :: 0 <= i < |done + [cs[0]]| ==> WellFormed((done + [cs[0]])[i].1)
    ensures ParseMembers(Join(MemberTexts(ps)) + ['}'] + rest, done) ==
            ParseMembers(Join(MemberTexts(ps[1..])) + ['}'] + rest, done + [cs[0]])
  {
    assert MemberTexts(ps)[1..] == MemberTexts(ps[1..]);
    var next := Join(MemberTexts(ps[1..])) + ['}'] + rest;
    var after := [','] + next;
    assert Join(MemberTexts(ps)) + ['}'] + rest == MemberText(ps[0]) + after;
    MemberStep(ps[0], cs[0], done, after);
    assert after[1..] == next;
    JoinStartsQuoted(ps[1..]);
    SkipNothing(next);
  }

  lemma FreshKey(done: seq<(string, Json)>, cs: seq<(string, Json)>)
    requires cs != [] && DistinctKeys(done + cs)
    ensures forall i :: 0 <= i < |done| ==> done[i].0 != cs[0].0
  {
    forall i | 0 <= i < |done| ensures done[i].0 != cs[0].0 {
      assert (done + cs)[i] == done[i] && (done + cs)[|done|] == cs[0];
    }
  }

  lemma LastMember(p: (string, string), c: (string, Json), done: seq<(string, Json)>, rest: string)
    requires Parallel([p], [c]) && DistinctKeys(done)
    requires forall i :: 0 <= i < |done| ==> WellFormed(done[i].1) && done[i].0 != c.0
    ensures ParseMembers(Join(MemberTexts([p])) + ['}'] + rest, done) == Some((done + [c], rest))
  {
    var after := ['}'] + rest;
    assert [p][0] == p && [c][0] == c;
    assert Join(MemberTexts([p])) + ['}'] + rest == MemberText(p) + after;
    MemberStep(p, c, done, after);
    assert after[1..] == rest;
  }

  lemma {:induction false} MembersParse(ps: seq<(string, string)>, cs: seq<(string, Json)>,
                                        done: seq<(string, Json)>, rest: string)
    requires ps != [] && Parallel(ps, cs) && DistinctKeys(done + cs) && DistinctKeys(done)
    requires forall i :: 0 <= i < |done| ==> WellFormed(done[i].1)
    ensures ParseMembers(Join(MemberTexts(ps)) + ['}'] + rest, done) == Some((done + cs, rest))
    decreases ps
  {
    hide ParseMembers, Join, MemberTexts, WellFormed, Reads;
    FreshKey(done, cs);
    if |ps| == 1 {
      LastMember(ps[0], cs[0], done, rest);
      assert [ps[0]] == ps && [cs[0]] == cs;
    } else {
      MembersAdvance(ps, cs, done, rest);
      assert done + [cs[0]] + cs[1..] == done + cs;
      MembersParse(ps[1..], cs[1..], done + [cs[0]], rest);
    }
  }

  lemma JoinStartsQuoted(ps: seq<(string, string)>)
    requires ps != []
    ensures Join(MemberTexts(ps)) != [] && Join(MemberTexts(ps))[0] == '"'
  {
    assert MemberTexts(ps)[0][0] == '"';
  }

  // ---------- sorting keeps the members ----------

  lemma {:induction false} InsertElements<T(!new)>(m: (string, T), ms: seq<(string, T)>)
    ensures |InsertMember(m, ms)| == |ms| + 1
    ensures forall x :: x in InsertMember(m, ms) <==> x == m || x in ms
  {
    if ms != [] && !Leq(m.0, ms[0].0) {
      InsertElements(m, ms[1..]);
      assert ms == [ms[0]] + ms[1..];
    }
  }

  lemma {:induction false} SortElements<T(!new)>(ms: seq<(string, T)>)
    ensures |SortMembers(ms)| == |ms|
    ensures forall x :: x in SortMembers(ms) <==> x in ms
  {
    if ms != [] {
      SortElements(ms[1..]);
      InsertElements(ms[0], SortMembers(ms[1..]));
      assert ms == [ms[0]] + ms[1..];
    }
  }

  predicate AscendingKeys<T>(ms: seq<(string, T)>) {
    forall i, j :: 0 <= i < j < |ms| ==> Less(ms[i].0, ms[j].0)
  }

  lemma {:induction false} InsertAscends<T(!new)>(m: (string, T), ms: seq<(string, T)>)
    requires AscendingKeys(ms) && forall x :: x in ms ==> x.0 != m.0
    ensures AscendingKeys(InsertMember(m, ms))
  {
    if ms == [] {
    } else if Leq(m.0, ms[0].0) {
      assert ms[0] in ms;
      forall j | 0 <= j < |ms| ensures Less(m.0, ms[j].0) {
        assert ms[j] in ms;
        if j > 0 { LeqTransitive(m.0, ms[0].0, ms[j].0); }
      }
    } else {
      assert ms[0] in ms;
      LeqTotal(m.0, ms[0].0);
      InsertAscends(m, ms[1..]);
      var tail := InsertMember(m, ms[1..]);
      InsertElements(m, ms[1..]);
      forall j | 0 <= j < |tail| ensures Less(ms[0].0, tail[j].0) {
        assert tail[j] in tail;
        if tail[j] != m {
          var k :| 0 <= k < |ms[1..]| && ms[1..][k] == tail[j];
          assert Less(ms[0].0, ms[k + 1].0);
        }
      }
    }
  }

  lemma {:induction false} SortAscends<T(!new)>(ms: seq<(string, T)>)
    requires DistinctKeys(ms)
    ensures AscendingKeys(SortMembers(ms))
  {
    if ms != [] {
      SortAscends(ms[1..]);
      SortElements(ms[1..]);
      forall x | x in SortMembers(ms[1..]) ensures x.0 != ms[0].0 {
        var k :| 0 <= k < |ms[1..]| && ms[1..][k] == x;
        assert ms[k + 1] == x;
      }
      InsertAscends(ms[0], SortMembers(ms[1..]));
    }
  }

  lemma AscendingDistinct<T(!new)>(ms: seq<(string, T)>)
    requires AscendingKeys(ms)
    ensures DistinctKeys(ms)
  {
  }

  lemma {:induction false} AscendingSorted<T(!new)>(ms: seq<(string, T)>)
    requires AscendingKeys(ms)
    ensures SortMembers(ms) == ms
  {
    if ms != [] {
      AscendingSorted(ms[1..]);
      if |ms| > 1 { assert Less(ms[0].0, ms[1].0); }
      assert ms == [ms[0]] + ms[1..];
    }
  }

  lemma {:induction false} AscendingUnique<T(!new)>(p: seq<(string, T)>, q: seq<(string, T)>)
    requires AscendingKeys(p) && AscendingKeys(q) && |p| == |q|
    requires forall x :: x in p <==> x in q
    ensures p == q
    decreases p
  {
    if p != [] {
      AscendingHead(p, q);
      forall x ensures x in p[1..] <==> x in q[1..] {
        if x in p[1..] { TailMember(p, q, x); }
        if x in q[1..] { TailMember(q, p, x); }
      }
      AscendingUnique(p[1..], q[1..]);
      assert p == [p[0]] + p[1..] && q == [q[0]] + q[1..];
    }
  }

  lemma AscendingHead<T(!new)>(p: seq<(string, T)>, q: seq<(string, T)>)
    requires AscendingKeys(p) && AscendingKeys(q) && |p| == |q| > 0
    requires forall x :: x in p <==> x in q
    ensures p[0] == q[0]
  {
    assert p[0] in p && q[0] in q;
    var i :| 0 <= i < |q| && q[i] == p[0];
    var j :| 0 <= j < |p| && p[j] == q[0];
    if i > 0 && j > 0 {
      assert Less(q[0].0, q[i].0) && Less(p[0].0, p[j].0);
      LeqAntisymmetric(p[0].0, q[0].0);
    }
  }

  lemma TailMember<T(!new)>(p: seq<(string, T)>, q: seq<(string, T)>, x: (string, T))
    requires AscendingKeys(p) && |p| == |q| > 0 && p[0] == q[0] && x in p[1..]
    requires forall y :: y in p <==> y in q
    ensures x in q[1..]
  {
    var k :| 1 <= k < |p| && p[k] == x;
    assert Less(p[0].0, p[k].0);
    assert x in p;
    var l :| 0 <= l < |q| && q[l] == x;
    assert q[1..][l - 1] == x;
  }

  lemma ObjectStep(s: string, t: string)
    requires s == ['{'] + t && t != [] && (t[0] == '}' || t[0] == '"')
    ensures t[0] == '}' ==> ParseValue(s) == Some((Obj([]), t[1..]))
    ensures t[0] != '}' && ParseMembers(t, []).Some? ==>
              ParseValue(s) == Some((Obj(ParseMembers(t, []).value.0), ParseMembers(t, []).value.1))
  {
    assert s[0] == '{' && s[1..] == t;
    SkipNothing(t);
  }

  lemma ObjectParses(ps: seq<(string, string)>, cs: seq<(string, Json)>, rest: string)
    requires Parallel(ps, cs) && DistinctKeys(cs)
    ensures ParseValue(['{'] + Join(MemberTexts(ps)) + ['}'] + rest) == Some((Obj(cs), rest))
  {
    var t := Join(MemberTexts(ps)) + ['}'] + rest;
    var s := ['{'] + Join(MemberTexts(ps)) + ['}'] + rest;
    assert s == ['{'] + t;
    if ps == [] {
      assert t == ['}'] + rest && t[1..] == rest && t[0] == '}';
      ObjectStep(s, t);
    } else {
      JoinStartsQuoted(ps);
      assert t[0] == Join(MemberTexts(ps))[0];
      ObjectStep(s, t);
      assert [] + cs == cs;
      MembersParse(ps, cs, [], rest);
    }
  }

  lemma ObjectReads(ms: seq<(string, Json)>)
    requires DistinctKeys(ms)
    requires forall i :: 0 <= i < |ms| ==> Reads(Print(ms[i].1), Canon(ms[i].1))
    ensures Reads(Print(Obj(ms)), Canon(Obj(ms)))
  {
    PrintUnfold(Obj(ms));
    CanonUnfold(Obj(ms));
    var ps, cs := SortMembers(PrintMembers(ms)), SortMembers(CanonMembers(ms));
    assert Parallel(PrintMembers(ms), CanonMembers(ms));
    ParallelSort(PrintMembers(ms), CanonMembers(ms));
    SortAscends(CanonMembers(ms));
    AscendingDistinct(cs);
    forall i | 0 <= i < |cs| ensures WellFormed(cs[i].1) { assert Reads(ps[i].1, cs[i].1); }
    forall rest | Follows(rest)
      ensures ParseValue(Print(Obj(ms)) + rest) == Some((Canon(Obj(ms)), rest))
    {
      ObjectParses(ps, cs, rest);
    }
  }

  // ---------- the round trip ----------

  lemma {:induction false} PrintReads(v: Json)
    requires WellFormed(v) && NoFloats(v)
    ensures Reads(Print(v), Canon(v))
    decreases v
  {
    match v
    case Null => LiteralReads("null", v);
    case Bool(b) => LiteralReads(if b then "true" else "false", v);
    case Int(i) => IntReads(i);
    case Float(_) =>
    case Str(s) => StringReads(s);
    case Arr(items) =>
      forall i | 0 <= i < |items| ensures Reads(Print(items[i]), Canon(items[i])) { PrintReads(items[i]); }
      ArrayReads(items);
    case Obj(ms) =>
      forall i | 0 <= i < |ms| ensures Reads(Print(ms[i].1), Canon(ms[i].1)) { PrintReads(ms[i].1); }
      ObjectReads(ms);
  }

  /** Parsing printed text returns the printed value, members in canonical order. */
  lemma RoundTrip(v: Json)
    requires WellFormed(v) && NoFloats(v)
    ensures Loads(Print(v)) == Some(Canon(v))
  {
    PrintReads(v);
    assert Print(v) + [] == Print(v);
    SkipNothing(Print(v));
  }

  // ---------- canonical form ----------

  lemma {:induction false} InsertPrint(m: (string, Json), ms: seq<(string, Json)>)
    ensures PrintMembers(InsertMember(m, ms)) == InsertMember((m.0, Print(m.1)), PrintMembers(ms))
    decreases ms
  {
    if ms != [] && !Leq(m.0, ms[0].0) {
      InsertPrint(m, ms[1..]);
      assert PrintMembers(ms)[1..] == PrintMembers(ms[1..]);
      assert PrintMembers([ms[0]] + InsertMember(m, ms[1..])) ==
             [PrintMembers(ms)[0]] + PrintMembers(InsertMember(m, ms[1..]));
    } else {
      assert PrintMembers([m] + ms) == [(m.0, Print(m.1))] + PrintMembers(ms);
    }
  }

  // Sorting by key and printing the values commute.
  lemma {:induction false} SortPrint(ms: seq<(string, Json)>)
    ensures PrintMembers(SortMembers(ms)) == SortMembers(PrintMembers(ms))
  {
    if ms != [] {
      SortPrint(ms[1..]);
      InsertPrint(ms[0], SortMembers(ms[1..]));
      assert PrintMembers(ms)[1..] == PrintMembers(ms[1..]);
    }
  }

  /** Canonical order does not change the printed text. */
  lemma {:induction false} PrintCanon(v: Json)
    requires WellFormed(v)
    ensures Print(Canon(v)) == Print(v)
    decreases v
  {
    PrintUnfold(v);
    CanonUnfold(v);
    match v
    case Arr(items) =>
      forall i | 0 <= i < |items| ensures Print(Canon(items[i])) == Print(items[i]) { PrintCanon(items[i]); }
      PrintUnfold(Arr(CanonItems(items)));
      assert PrintItems(CanonItems(items)) == PrintItems(items);
    case Obj(ms) =>
      forall i | 0 <= i < |ms| ensures Print(Canon(ms[i].1)) == Print(ms[i].1) { PrintCanon(ms[i].1); }
      assert PrintMembers(CanonMembers(ms)) == PrintMembers(ms);
      PrintCanonObject(ms);
    case _ =>
  }

  lemma PrintCanonObject(ms: seq<(string, Json)>)
    requires DistinctKeys(ms) && PrintMembers(CanonMembers(ms)) == PrintMembers(ms)
    ensures Print(Obj(SortMembers(CanonMembers(ms)))) == Print(Obj(ms))
  {
    PrintUnfold(Obj(ms));
    PrintUnfold(Obj(SortMembers(CanonMembers(ms))));
    SortPrint(CanonMembers(ms));
    SortAscends(PrintMembers(ms));
    AscendingSorted(SortMembers(PrintMembers(ms)));
  }

  lemma CanonMemberOf(ms: seq<(string, Json)>, i: nat) returns (k: nat)
    requires i < |SortMembers(CanonMembers(ms))|
    ensures k < |ms| && SortMembers(CanonMembers(ms))[i] == (ms[k].0, Canon(ms[k].1))
  {
    var cs := SortMembers(CanonMembers(ms));
    SortElements(CanonMembers(ms));
    assert cs[i] in cs;
    k :| 0 <= k < |ms| && CanonMembers(ms)[k] == cs[i];
  }

  lemma {:induction false} CanonKeeps(v: Json, depth: nat)
    ensures NoFloats(v) ==> NoFloats(Canon(v))
    ensures Shallow(v, depth) ==> Shallow(Canon(v), depth)
    decreases v
  {
    CanonUnfold(v);
    match v
    case Arr(items) =>
      forall i | 0 <= i < |items|
        ensures NoFloats(items[i]) ==> NoFloats(Canon(items[i]))
        ensures Shallow(items[i], depth + 1) ==> Shallow(Canon(items[i]), depth + 1)
      {
        CanonKeeps(items[i], depth + 1);
      }
    case Obj(ms) =>
      var cs := SortMembers(CanonMembers(ms));
      forall i | 0 <= i < |cs|
        ensures NoFloats(v) ==> NoFloats(cs[i].1)
        ensures Shallow(v, depth) ==> Shallow(cs[i].1, depth + 1)
      {
        var k := CanonMemberOf(ms, i);
        CanonKeeps(ms[k].1, depth + 1);
      }
    case _ =>
  }

  /** require_canonical_json accepts every text the printer can emit and returns the
      printed value. */
  lemma AcceptsPrinted(v: Json)
    requires Printable(v)
    ensures RequireCanonical(Print(v)) == Some(Canon(v))
  {
    RoundTrip(v);
    CanonKeeps(v, 0);
    NormalizeExact(Canon(v), 0);
    PrintCanon(v);
  }

  /** ... and nothing else: floats, spaces, other escapes, unsorted or repeated keys,
      leading zeros and deep nesting are all refused. */
  lemma RequireCanonicalExact(text: string)
    ensures RequireCanonical(text).Some? <==> exists v :: Printable(v) && text == Print(v)
    ensures RequireCanonical(text).Some? ==>
              Printable(RequireCanonical(text).value) && Print(RequireCanonical(text).value) == text
  {
    if RequireCanonical(text).Some? {
      var v := RequireCanonical(text).value;
      NormalizeExact(v, 0);
      assert Printable(v) && text == Print(v);
    }
    if exists v :: Printable(v) && text == Print(v) {
      var v :| Printable(v) && text == Print(v);
      AcceptsPrinted(v);
    }
  }

  /** Two values print the same text exactly when they are equal up to the order of
      members: the text determines the value. */
  lemma TextDeterminesValue(u: Json, v: Json)
    requires WellFormed(u) && NoFloats(u) && WellFormed(v) && NoFloats(v)
    ensures Print(u) == Print(v) <==> Canon(u) == Canon(v)
  {
    RoundTrip(u);
    RoundTrip(v);
    PrintCanon(u);
    PrintCanon(v);
  }

  /** Inserting the same members into a dict in another order never changes the text. */
  lemma InsertionOrderIrrelevant(ms: seq<(string, Json)>, ns: seq<(string, Json)>)
    requires DistinctKeys(ms) && DistinctKeys(ns) && |ms| == |ns|
    requires forall x :: x in ms <==> x in ns
    ensures Print(Obj(ms)) == Print(Obj(ns))
  {
    SortElements(ms);
    SortElements(ns);
    SortAscends(ms);
    SortAscends(ns);
    AscendingUnique(SortMembers(ms), SortMembers(ns));
    SortPrint(ms);
    SortPrint(ns);
    PrintUnfold(Obj(ms));
    PrintUnfold(Obj(ns));
  }

  // ---------- escapes ----------

  // A hexadecimal digit in either case.
  function HexChar(n: nat, upper: bool): char
    requires n < 16
  {
    if upper && n >= 10 then 'A' + (n - 10) as char else HexDigit(n)
  }

  // Four hexadecimal digits, in any mixture of cases.
  function FourHex(n: nat, upper: (bool, bool, bool, bool)): string
    requires n < 0x1_0000
  {
    [HexChar(n / 0x1000, upper.0), HexChar(n / 0x100 % 16, upper.1), HexChar(n / 0x10 % 16, upper.2),
     HexChar(n % 16, upper.3)]
  }

  lemma FourHexRead(n: nat, upper: (bool, bool, bool, bool), rest: string)
    requires n < 0x1_0000
    ensures Hex4(FourHex(n, upper) + rest) == Some(n) && (FourHex(n, upper) + rest)[4..] == rest
  {
    hide HexChar, HexValue;
    var a, b, c, d := n / 0x1000, n / 0x100 % 16, n / 0x10 % 16, n % 16;
    HexOne(a, upper.0);
    HexOne(b, upper.1);
    HexOne(c, upper.2);
    HexOne(d, upper.3);
    DigitsOf(n);
    FourRead([HexChar(a, upper.0), HexChar(b, upper.1), HexChar(c, upper.2), HexChar(d, upper.3)], a, b, c, d, rest);
  }

  lemma DigitsOf(n: nat)
    requires n < 0x1_0000
    ensures 0x1000 * (n / 0x1000) + 0x100 * (n / 0x100 % 16) + 0x10 * (n / 0x10 % 16) + n % 16 == n
  {
    assert n / 0x100 == n / 0x10 / 16 && n / 0x1000 == n / 0x100 / 16;
  }

  lemma FourRead(t: string, a: nat, b: nat, c: nat, d: nat, rest: string)
    requires a < 16 && b < 16 && c < 16 && d < 16 && |t| == 4
    requires HexValue(t[0]) == Some(a) && HexValue(t[1]) == Some(b) && HexValue(t[2]) == Some(c) && HexValue(t[3]) == Some(d)
    ensures Hex4(t + rest) == Some(0x1000 * a + 0x100 * b + 0x10 * c + d) && (t + rest)[4..] == rest
  {
    hide HexValue;
    var s := t + rest;
    assert s[0] == t[0] && s[1] == t[1] && s[2] == t[2] && s[3] == t[3];
  }

  lemma HexOne(n: nat, upper: bool)
    requires n < 16
    ensures HexValue(HexChar(n, upper)) == Some(n)
  {
  }

  /** Every character is read back from its \u escape, in either case of the digits, one
      beyond the basic plane from its pair of surrogates; half a pair is refused. */
  lemma EscapeReads(c: char, upper: (bool, bool, bool, bool), lower: (bool, bool, bool, bool), rest: string)
    ensures c as int < 0x1_0000 ==> ParseUnicode(FourHex(c as int, upper) + rest) == Some((c, rest))
    ensures c as int >= 0x1_0000 ==>
              ParseUnicode(FourHex(High(c), upper) + (['\\', 'u'] + (FourHex(Low(c), lower) + rest))) == Some((c, rest))
    ensures c as int >= 0x1_0000 && (|rest| < 2 || rest[..2] != ['\\', 'u']) ==>
              ParseUnicode(FourHex(High(c), upper) + rest) == None
  {
    hide FourHex, Hex4;
    if c as int < 0x1_0000 {
      FourHexRead(c as int, upper, rest);
    } else {
      var last := FourHex(Low(c), lower) + rest;
      var tail := ['\\', 'u'] + last;
      FourHexRead(High(c), upper, tail);
      FourHexRead(Low(c), lower, rest);
      PairReads(FourHex(High(c), upper) + tail, c, last, rest);
      FourHexRead(High(c), upper, rest);
      LoneHalf(FourHex(High(c), upper) + rest, High(c), rest);
    }
  }

  // The two surrogates of a character beyond the basic plane.
  function High(c: char): nat { if c as int < 0x1_0000 then 0 else 0xD800 + (c as int - 0x1_0000) / 0x400 }

  function Low(c: char): nat { if c as int < 0x1_0000 then 0 else 0xDC00 + (c as int - 0x1_0000) % 0x400 }

  lemma PairReads(s: string, c: char, last: string, rest: string)
    requires c as int >= 0x1_0000 && Hex4(s) == Some(High(c)) && s[4..] == ['\\', 'u'] + last
    requires Hex4(last) == Some(Low(c)) && |last| >= 4 && last[4..] == rest
    ensures ParseUnicode(s) == Some((c, rest))
  {
    hide Hex4;
    assert s[4] == s[4..][0] && s[5] == s[4..][1];
    assert s[6..] == s[4..][2..] == last;
    assert s[10..] == s[6..][4..];
  }

  lemma LoneHalf(s: string, n: nat, rest: string)
    requires 0xD800 <= n < 0xE000 && Hex4(s) == Some(n) && s[4..] == rest
    requires |s| >= 4
    ensures |rest| < 2 || rest[..2] != ['\\', 'u'] ==> ParseUnicode(s) == None
  {
    hide Hex4;
    if |rest| >= 2 { assert s[4] == rest[0] && s[5] == rest[1] && rest[..2] == [rest[0], rest[1]]; }
  }

  // An escape of two characters that the reader knows, other than that of the slash.
  predicate ShortFor(e: char, c: char) { Unescape(e) == Some(c) && e != '/' }

  /** The printer escapes as little as possible: with the short escape where the reader knows
      one, with \u00 and two lower-case digits below the space, and not at all elsewhere. */
  lemma EscapesLeast(c: char, e: char)
    ensures ShortFor(e, c) ==> Escape(c) == ['\\', e]
    ensures c as int >= 32 && c != '"' && c != '\\' ==> Escape(c) == [c]
    ensures c as int < 32 && c !in {'\n', '\r', '\t'} && c as int != 8 && c as int != 12 ==>
              Escape(c) == ['\\', 'u'] + FourHex(c as int, (false, false, false, false))
  {
    if c as int < 32 {
      assert c as int / 0x1000 == 0 && c as int / 0x100 == 0 && HexDigit(0) == '0';
      assert c as int / 0x10 % 16 == c as int / 16;
    }
  }

  // ---------- what else the reader takes in ----------

  predicate Blank(s: string) { forall i :: 0 <= i < |s| ==> s[i] in {' ', '\t', '\n', '\r'} }

  lemma {:induction false} SkipBlank(p: string, s: string)
    requires Blank(p) && (s == [] || !IsSpace(s[0]))
    ensures SkipSpace(p + s) == s
    decreases |p|
  {
    if p == [] {
      assert p + s == s;
    } else {
      assert (p + s)[1..] == p[1..] + s && (p + s)[0] == p[0];
      SkipBlank(p[1..], s);
    }
  }

  /** Blanks around a printed value do not matter to the reader. */
  lemma BlanksAround(v: Json, p: string, q: string)
    requires WellFormed(v) && NoFloats(v) && Blank(p) && Blank(q)
    ensures Loads(p + Print(v) + q) == Some(Canon(v))
  {
    hide Print, ParseValue, NoFloats, WellFormed, SkipSpace;
    PrintReads(v);
    var text := Print(v) + q;
    assert p + Print(v) + q == p + text;
    assert text[0] == Print(v)[0];
    SkipBlank(p, text);
    assert Follows(q);
    assert ParseValue(text) == Some((Canon(v), q));
    SkipBlank(q, []);
    assert q + [] == q;
    assert (p + text)[0] == if p == [] then text[0] else p[0];
  }

  /** A repeated key keeps its place and takes the later value, a new one comes last; every
      other member stays. */
  lemma {:induction false} PutMeans(ms: seq<(string, Json)>, key: string, v: Json, i: nat)
    requires DistinctKeys(ms) && (forall j :: 0 <= j < |ms| ==> WellFormed(ms[j].1)) && WellFormed(v)
    ensures var r := Put(ms, key, v);
            && |ms| <= |r| <= |ms| + 1
            && (i < |ms| ==> r[i] == if ms[i].0 == key then (key, v) else ms[i])
            && (i < |ms| && ms[i].0 == key ==> |r| == |ms|)
            && (|r| == |ms| + 1 ==> r[|ms|] == (key, v))
            && (|r| == |ms| ==> exists j :: 0 <= j < |ms| && ms[j].0 == key)
    decreases ms
  {
    hide WellFormed, DistinctKeys;
    if ms != [] && ms[0].0 != key {
      TailDistinct(ms);
      PutMeans(ms[1..], key, v, if i == 0 then 0 else i - 1);
    } else if ms != [] && i > 0 {
      HeadOnly(ms, i);
    }
  }

  lemma TailDistinct(ms: seq<(string, Json)>)
    requires ms != [] && DistinctKeys(ms)
    ensures DistinctKeys(ms[1..])
  {
  }

  lemma HeadOnly(ms: seq<(string, Json)>, i: nat)
    requires DistinctKeys(ms) && 0 < i
    ensures i < |ms| ==> ms[i].0 != ms[0].0
  {
  }
}
