/** JSON values as the client sees them through its JSON library: a small
    datatype, a compact serializer and a parser that may fail.  The grammar is
    a subset of JSON (integers only, no whitespace, backslash escapes only for
    quote and backslash); what the client relies on is that parsing what was
    serialized gives back the value, and that text outside the grammar fails. */
module Json {
  import opened Options

  datatype Json =
    | JNull
    | JBool(b: bool)
    | JNumber(n: int)
    | JString(s: string)
    | JArray(items: seq<Json>)
    | JObject(members: seq<Member>)

  datatype Member = Member(key: string, value: Json)

  // ---------------------------------------------------------------------
  // Serializer
  // ---------------------------------------------------------------------

  predicate IsDigit(c: char) { '0' <= c <= '9' }

  function DigitChar(d: nat): (c: char)
    requires d < 10
    ensures IsDigit(c)
  {
    ['0', '1', '2', '3', '4', '5', '6', '7', '8', '9'][d]
  }

  function DigitValue(c: char): (d: nat)
    requires IsDigit(c)
    ensures d < 10
  {
    (c as int - '0' as int) as nat
  }

  /** Decimal digits of a natural number, most significant first. */
  function NatText(n: nat): (t: string)
    ensures |t| > 0 && forall i :: 0 <= i < |t| ==> IsDigit(t[i])
  {
    if n < 10 then [DigitChar(n)] else NatText(n / 10) + [DigitChar(n % 10)]
  }

  /** Decimal text of an integer, as `QString::number` writes it. */
  function IntText(n: int): (t: string)
    ensures |t| > 0
  {
    if n < 0 then "-" + NatText(-n) else NatText(n)
  }

  /** Inside a string literal, quote and backslash are preceded by a backslash. */
  function Escape(s: string): string
  {
    if s == [] then []
    else (if s[0] == '"' || s[0] == '\\' then ['\\', s[0]] else [s[0]]) + Escape(s[1..])
  }

  function Quote(s: string): string
  {
    "\"" + Escape(s) + "\""
  }

  function Render(j: Json): string
  {
    match j
    case JNull => "null"
    case JBool(b) => if b then "true" else "false"
    case JNumber(n) => IntText(n)
    case JString(s) => Quote(s)
    case JArray(items) => "[" + RenderItems(items) + "]"
    case JObject(members) => "{" + RenderMembers(members) + "}"
  }

  /** Array elements separated by commas. */
  function RenderItems(items: seq<Json>): string
  {
    if items == [] then ""
    else Render(items[0]) + (if |items| == 1 then "" else "," + RenderItems(items[1..]))
  }

  /** Object members `"key":value` separated by commas. */
  function RenderMembers(members: seq<Member>): string
  {
    if members == [] then ""
    else Quote(members[0].key) + ":" + Render(members[0].value)
         + (if |members| == 1 then "" else "," + RenderMembers(members[1..]))
  }

  // ---------------------------------------------------------------------
  // Parser: each function consumes a prefix and returns the rest.
  // ---------------------------------------------------------------------

  /** The number of leading digits of `s`. */
  function LeadingDigits(s: string): (k: nat)
    ensures k <= |s|
  {
    if s == [] || !IsDigit(s[0]) then 0 else 1 + LeadingDigits(s[1..])
  }

  /** The value of a run of decimal digits. */
  function DigitsValue(t: string): nat
    requires forall i :: 0 <= i < |t| ==> IsDigit(t[i])
  {
    if t == [] then 0 else DigitsValue(t[..|t| - 1]) * 10 + DigitValue(t[|t| - 1])
  }

  function ParseNat(s: string): (r: Option<(nat, string)>)
    ensures r.Some? ==> |r.value.1| < |s|
  {
    var k := LeadingDigits(s);
    if k == 0 then None
    else
      LeadingDigitsAreDigits(s);
      Some((DigitsValue(s[..k]), s[k..]))
  }

  function ParseNumber(s: string): (r: Option<(Json, string)>)
    ensures r.Some? ==> |r.value.1| < |s|
  {
    if |s| > 0 && s[0] == '-' then
      match ParseNat(s[1..])
      case Some((n, rest)) => Some((JNumber(-(n as int)), rest))
      case None => None
    else
      match ParseNat(s)
      case Some((n, rest)) => Some((JNumber(n), rest))
      case None => None
  }

  /** The characters of a string literal after its opening quote, up to and
      including the closing quote. */
  function ParseStringBody(s: string): (r: Option<(string, string)>)
    ensures r.Some? ==> |r.value.1| < |s|
  {
    if s == [] then None
    else if s[0] == '"' then Some(([], s[1..]))
    else if s[0] == '\\' then
      if |s| < 2 then None
      else match ParseStringBody(s[2..])
           case Some((t, rest)) => Some(([s[1]] + t, rest))
           case None => None
    else
      match ParseStringBody(s[1..])
      case Some((t, rest)) => Some(([s[0]] + t, rest))
      case None => None
  }

  function ParseString(s: string): (r: Option<(string, string)>)
    ensures r.Some? ==> |r.value.1| < |s|
  {
    if |s| > 0 && s[0] == '"' then ParseStringBody(s[1..]) else None
  }

  /** A fixed word such as `null` at the head of `s`. */
  function ParseWord(s: string, word: string, value: Json): (r: Option<(Json, string)>)
    requires |word| > 0
    ensures r.Some? ==> |r.value.1| < |s|
  {
    if |s| >= |word| && s[..|word|] == word then Some((value, s[|word|..])) else None
  }

  function ParseValue(s: string): (r: Option<(Json, string)>)
    ensures r.Some? ==> |r.value.1| < |s|
    decreases |s|, 1
  {
    if s == [] then None
    else if s[0] == 'n' then ParseWord(s, "null", JNull)
    else if s[0] == 't' then ParseWord(s, "true", JBool(true))
    else if s[0] == 'f' then ParseWord(s, "false", JBool(false))
    else if s[0] == '"' then
      match ParseString(s)
      case Some((t, rest)) => Some((JString(t), rest))
      case None => None
    else if s[0] == '-' || IsDigit(s[0]) then ParseNumber(s)
    else if s[0] == '[' then
      if |s| > 1 && s[1] == ']' then Some((JArray([]), s[2..])) else ParseItems(s[1..], [])
    else if s[0] == '{' then
      if |s| > 1 && s[1] == '}' then Some((JObject([]), s[2..])) else ParseMembers(s[1..], [])
    else None
  }

  /** Array elements after `[` (or after a comma); `done` holds those read so far. */
  function ParseItems(s: string, done: seq<Json>): (r: Option<(Json, string)>)
    ensures r.Some? ==> |r.value.1| < |s|
    decreases |s|, 2
  {
    match ParseValue(s)
    case None => None
    case Some((v, rest)) =>
      if rest == [] then None
      else if rest[0] == ',' then ParseItems(rest[1..], done + [v])
      else if rest[0] == ']' then Some((JArray(done + [v]), rest[1..]))
      else None
  }

  /** Object members after `{` (or after a comma); `done` holds those read so far. */
  function ParseMembers(s: string, done: seq<Member>): (r: Option<(Json, string)>)
    ensures r.Some? ==> |r.value.1| < |s|
    decreases |s|, 2
  {
    match ParseString(s)
    case None => None
    case Some((key, afterKey)) =>
      if afterKey == [] || afterKey[0] != ':' then None
      else match ParseValue(afterKey[1..])
        case None => None
        case Some((v, rest)) =>
          if rest == [] then None
          else if rest[0] == ',' then ParseMembers(rest[1..], done + [Member(key, v)])
          else if rest[0] == '}' then Some((JObject(done + [Member(key, v)]), rest[1..]))
          else None
  }

  /** `QJsonDocument::fromJson`: a document is an object or an array and
      nothing may follow it; anything else is a null document (None). */
  function ParseDocument(s: string): (r: Option<Json>)
    ensures r.Some? ==> r.value.JObject? || r.value.JArray?
  {
    match ParseValue(s)
    case Some((j, rest)) => if rest == [] && (j.JObject? || j.JArray?) then Some(j) else None
    case None => None
  }

  // ---------------------------------------------------------------------
  // QJsonValue conversions: a value of the wrong kind converts to the
  // empty value of the requested kind.
  // ---------------------------------------------------------------------

  /** `object[key]` / `object.take(key)`: the member's value, or JNull
      (an undefined value) when the key is absent. */
  function Field(members: seq<Member>, key: string): (v: Json)
    ensures v != JNull ==> exists i :: 0 <= i < |members| && members[i].key == key && members[i].value == v
    ensures (forall i :: 0 <= i < |members| ==> members[i].key != key) ==> v == JNull
    ensures forall i :: 0 <= i < |members| && members[i].key == key && (forall j :: 0 <= j < i ==> members[j].key != key)
                        ==> v == members[i].value
  {
    if members == [] then JNull
    else if members[0].key == key then members[0].value
    else
      var v := Field(members[1..], key);
      assert v != JNull ==> exists i :: 1 <= i < |members| && members[i].key == key && members[i].value == v by {
        if v != JNull {
          var i :| 0 <= i < |members[1..]| && members[1..][i].key == key && members[1..][i].value == v;
          assert members[i + 1] == members[1..][i];
        }
      }
      v
  }

  /** `toObject()` and `QJsonDocument::object()`. */
  function AsObject(j: Json): seq<Member>
  {
    if j.JObject? then j.members else []
  }

  /** `toArray()`. */
  function AsArray(j: Json): seq<Json>
  {
    if j.JArray? then j.items else []
  }

  /** `toString()`. */
  function AsString(j: Json): string
  {
    if j.JString? then j.s else ""
  }

  /** `toInt()` and `(int) toDouble()`: numbers are integers in this model. */
  function AsInt(j: Json): int
  {
    if j.JNumber? then j.n else 0
  }

  // ---------------------------------------------------------------------
  // Round trip
  // ---------------------------------------------------------------------

  /** What may follow a rendered value: a delimiter of the grammar or nothing. */
  predicate Delimited(rest: string)
  {
    rest == [] || rest[0] == ',' || rest[0] == ']' || rest[0] == '}' || rest[0] == ':'
  }

  lemma LeadingDigitsAreDigits(s: string)
    ensures forall i :: 0 <= i < LeadingDigits(s) ==> IsDigit(s[i])
  {
    if s != [] && IsDigit(s[0]) {
      LeadingDigitsAreDigits(s[1..]);
      forall i | 0 < i < LeadingDigits(s) ensures IsDigit(s[i]) {
        assert s[i] == s[1..][i - 1];
      }
    }
  }

  lemma {:induction false} LeadingDigitsOfText(t: string, rest: string)
    requires forall i :: 0 <= i < |t| ==> IsDigit(t[i])
    requires rest == [] || !IsDigit(rest[0])
    ensures LeadingDigits(t + rest) == |t|
  {
    if t == [] {
      assert t + rest == rest;
    } else {
      assert (t + rest)[1..] == t[1..] + rest;
      LeadingDigitsOfText(t[1..], rest);
    }
  }

  lemma {:induction false} DigitsValueOfNatText(n: nat)
    ensures DigitsValue(NatText(n)) == n
  {
    var t := NatText(n);
    if n < 10 {
      assert t[..0] == [];
      assert DigitValue(DigitChar(n)) == n by {
        assert DigitChar(n) as int == '0' as int + n;
      }
    } else {
      DigitsValueOfNatText(n / 10);
      assert t[..|t| - 1] == NatText(n / 10);
      assert DigitValue(DigitChar(n % 10)) == n % 10 by {
        assert DigitChar(n % 10) as int == '0' as int + n % 10;
      }
    }
  }

  lemma ParseNatText(n: nat, rest: string)
    requires rest == [] || !IsDigit(rest[0])
    ensures ParseNat(NatText(n) + rest) == Some((n, rest))
  {
    var t := NatText(n);
    LeadingDigitsOfText(t, rest);
    assert (t + rest)[..|t|] == t;
    assert (t + rest)[|t|..] == rest;
    DigitsValueOfNatText(n);
  }

  lemma {:induction false} ParseStringBodyEscaped(s: string, rest: string)
    ensures ParseStringBody(Escape(s) + "\"" + rest) == Some((s, rest))
  {
    var input := Escape(s) + "\"" + rest;
    if s == [] {
      assert input == "\"" + rest;
      assert input[1..] == rest;
    } else {
      ParseStringBodyEscaped(s[1..], rest);
      if s[0] == '"' || s[0] == '\\' {
        assert input == ['\\', s[0]] + (Escape(s[1..]) + "\"" + rest);
        assert input[2..] == Escape(s[1..]) + "\"" + rest;
      } else {
        assert input == [s[0]] + (Escape(s[1..]) + "\"" + rest);
        assert input[1..] == Escape(s[1..]) + "\"" + rest;
      }
      assert [s[0]] + s[1..] == s;
    }
  }

  lemma ParseQuoted(s: string, rest: string)
    ensures ParseString(Quote(s) + rest) == Some((s, rest))
  {
    assert Quote(s) + rest == "\"" + (Escape(s) + "\"" + rest);
    assert (Quote(s) + rest)[1..] == Escape(s) + "\"" + rest;
    ParseStringBodyEscaped(s, rest);
  }

  /** Serializing a value and parsing it back yields the value and leaves
      whatever followed it untouched. */
  lemma {:induction false} ParseRendered(j: Json, rest: string)
    requires Delimited(rest)
    ensures ParseValue(Render(j) + rest) == Some((j, rest))
    decreases j, 2
  {
    match j
    case JNull => ParseRenderedWord("null", JNull, rest);
    case JBool(b) =>
      if b { ParseRenderedWord("true", j, rest); } else { ParseRenderedWord("false", j, rest); }
    case JNumber(n) => ParseRenderedNumber(n, rest);
    case JString(s) =>
      ParseQuoted(s, rest);
      assert (Render(j) + rest)[0] == '"';
    case JArray(items) => ParseRenderedArray(items, rest);
    case JObject(members) => ParseRenderedObject(members, rest);
  }

  lemma ParseRenderedWord(word: string, j: Json, rest: string)
    requires word == Render(j) && word in {"null", "true", "false"}
    ensures ParseValue(Render(j) + rest) == Some((j, rest))
  {
    var input := word + rest;
    assert input[..|word|] == word && input[|word|..] == rest;
    assert input[0] == word[0];
  }

  lemma ParseRenderedNumber(n: int, rest: string)
    requires Delimited(rest)
    ensures ParseValue(Render(JNumber(n)) + rest) == Some((JNumber(n), rest))
  {
    if n < 0 {
      ParseRenderedNegative(n, rest);
    } else {
      ParseRenderedNonNegative(n, rest);
    }
  }

  lemma ParseRenderedNegative(n: int, rest: string)
    requires n < 0 && Delimited(rest)
    ensures ParseValue(Render(JNumber(n)) + rest) == Some((JNumber(n), rest))
  {
    var tail := NatText(-n) + rest;
    ParseNatText(-n, rest);
    RenderedNumberText(n, rest);
    assert ("-" + tail)[1..] == tail;
    NegativeStep("-" + tail, -n, rest);
  }

  lemma ParseRenderedNonNegative(n: int, rest: string)
    requires n >= 0 && Delimited(rest)
    ensures ParseValue(Render(JNumber(n)) + rest) == Some((JNumber(n), rest))
  {
    ParseNatText(n, rest);
    RenderedNumberText(n, rest);
    NonNegativeStep(NatText(n) + rest, n, rest);
  }

  /** The text of a rendered number followed by `rest`. */
  lemma RenderedNumberText(n: int, rest: string)
    ensures n < 0 ==> Render(JNumber(n)) + rest == "-" + (NatText(-n) + rest)
    ensures n >= 0 ==> Render(JNumber(n)) + rest == NatText(n) + rest && IsDigit((NatText(n) + rest)[0])
  {
  }

  /** ParseValue on a minus sign followed by digits. */
  lemma NegativeStep(s: string, m: nat, rest: string)
    requires |s| > 0 && s[0] == '-' && ParseNat(s[1..]) == Some((m, rest))
    ensures ParseValue(s) == Some((JNumber(-(m as int)), rest))
  {
    assert ParseValue(s) == ParseNumber(s);
  }

  /** ParseValue on a digit. */
  lemma NonNegativeStep(s: string, m: nat, rest: string)
    requires |s| > 0 && IsDigit(s[0]) && ParseNat(s) == Some((m, rest))
    ensures ParseValue(s) == Some((JNumber(m), rest))
  {
    assert ParseValue(s) == ParseNumber(s);
  }

  lemma {:induction false} ParseRenderedArray(items: seq<Json>, rest: string)
    ensures ParseValue(Render(JArray(items)) + rest) == Some((JArray(items), rest))
    decreases items, 2
  {
    var input := Render(JArray(items)) + rest;
    if items == [] {
      assert input == "[]" + rest;
      assert input[2..] == rest;
    } else {
      var body := RenderItems(items) + "]" + rest;
      assert input == "[" + body;
      assert input[1..] == body;
      NotClosingBracket(items[0]);
      assert body[0] == Render(items[0])[0];
      ParseRenderedItems(items, [], rest);
      assert [] + items == items;
      OpenStep(input);
    }
  }

  lemma {:induction false} ParseRenderedObject(members: seq<Member>, rest: string)
    ensures ParseValue(Render(JObject(members)) + rest) == Some((JObject(members), rest))
    decreases members, 2
  {
    var input := Render(JObject(members)) + rest;
    if members == [] {
      assert input == "{}" + rest;
      assert input[2..] == rest;
    } else {
      var body := RenderMembers(members) + "}" + rest;
      assert input == "{" + body;
      assert input[1..] == body;
      assert body[0] == '"';
      ParseRenderedMembers(members, [], rest);
      assert [] + members == members;
      OpenStep(input);
    }
  }

  /** ParseValue on a non-empty array or object hands the rest to the
      element or member parser. */
  lemma OpenStep(s: string)
    requires |s| > 1 && (s[0] == '[' || s[0] == '{') && s[1] != ']' && s[1] != '}'
    ensures s[0] == '[' ==> ParseValue(s) == ParseItems(s[1..], [])
    ensures s[0] == '{' ==> ParseValue(s) == ParseMembers(s[1..], [])
  {
  }

  lemma {:induction false} ParseRenderedItems(items: seq<Json>, done: seq<Json>, rest: string)
    requires items != []
    ensures ParseItems(RenderItems(items) + "]" + rest, done) == Some((JArray(done + items), rest))
    decreases items, 1
  {
    FirstItemStep(items, done, rest);
    SplitFirst(done, items);
    if |items| > 1 {
      ParseRenderedItems(items[1..], done + [items[0]], rest);
    }
  }

  /** Parsing rendered elements reads the first one and goes on after the
      comma, or stops at the closing bracket. */
  lemma {:induction false} FirstItemStep(items: seq<Json>, done: seq<Json>, rest: string)
    requires items != []
    ensures ParseItems(RenderItems(items) + "]" + rest, done)
         == if |items| == 1 then Some((JArray(done + [items[0]]), rest))
            else ParseItems(RenderItems(items[1..]) + "]" + rest, done + [items[0]])
    decreases items, 0
  {
    var first := Render(items[0]);
    if |items| == 1 {
      var tail := "]" + rest;
      assert RenderItems(items) + "]" + rest == first + tail;
      ParseRendered(items[0], tail);
      ItemStep(first + tail, items[0], tail, done);
    } else {
      var more := RenderItems(items[1..]) + "]" + rest;
      var tail := "," + more;
      assert RenderItems(items) + "]" + rest == first + tail;
      ParseRendered(items[0], tail);
      ItemStep(first + tail, items[0], tail, done);
    }
  }

  /** One step of ParseItems once the element itself has been parsed. */
  lemma ItemStep(s: string, v: Json, tail: string, done: seq<Json>)
    requires ParseValue(s) == Some((v, tail))
    requires tail != [] && (tail[0] == ',' || tail[0] == ']')
    ensures tail[0] == ']' ==> ParseItems(s, done) == Some((JArray(done + [v]), tail[1..]))
    ensures tail[0] == ',' ==> ParseItems(s, done) == ParseItems(tail[1..], done + [v])
  {
  }

  lemma {:induction false} ParseRenderedMembers(members: seq<Member>, done: seq<Member>, rest: string)
    requires members != []
    ensures ParseMembers(RenderMembers(members) + "}" + rest, done) == Some((JObject(done + members), rest))
    decreases members, 1
  {
    FirstMemberStep(members, done, rest);
    SplitFirst(done, members);
    if |members| > 1 {
      ParseRenderedMembers(members[1..], done + [members[0]], rest);
    }
  }

  /** Moving the first element of `s` to the end of `done`. */
  lemma SplitFirst<T>(done: seq<T>, s: seq<T>)
    requires s != []
    ensures done + [s[0]] + s[1..] == done + s
    ensures |s| == 1 ==> done + [s[0]] == done + s
  {
    assert s == [s[0]] + s[1..];
  }

  /** Parsing a rendered member list reads its first member and goes on
      after the comma, or stops at the closing brace. */
  lemma {:induction false} FirstMemberStep(members: seq<Member>, done: seq<Member>, rest: string)
    requires members != []
    ensures ParseMembers(RenderMembers(members) + "}" + rest, done)
         == if |members| == 1 then Some((JObject(done + [members[0]]), rest))
            else ParseMembers(RenderMembers(members[1..]) + "}" + rest, done + [members[0]])
    decreases members, 0
  {
    var m := members[0];
    var tail := MembersTail(members, rest);
    var afterKey := ":" + (Render(m.value) + tail);
    RenderMembersSplit(members, rest);
    ParseMemberAt(m, tail);
    MemberStep(RenderMembers(members) + "}" + rest, m, afterKey, tail, done);
  }

  /** What follows the first member of a rendered, closed object. */
  function MembersTail(members: seq<Member>, rest: string): (t: string)
    requires members != []
    ensures t != [] && (t[0] == ',' || t[0] == '}')
    ensures t[1..] == if |members| == 1 then rest else RenderMembers(members[1..]) + "}" + rest
  {
    if |members| == 1 then "}" + rest else "," + (RenderMembers(members[1..]) + "}" + rest)
  }

  lemma RenderMembersSplit(members: seq<Member>, rest: string)
    requires members != []
    ensures RenderMembers(members) + "}" + rest
         == Quote(members[0].key) + (":" + (Render(members[0].value) + MembersTail(members, rest)))
  {
    RenderMembersUnfold(members);
    MembersTailAfterFirst(members, rest);
    AppendSix(Quote(members[0].key), ":", Render(members[0].value), MoreMembers(members), "}", rest);
  }

  /** What follows the first member in a rendered member list. */
  function MoreMembers(members: seq<Member>): string
    requires members != []
  {
    if |members| == 1 then "" else "," + RenderMembers(members[1..])
  }

  lemma RenderMembersUnfold(members: seq<Member>)
    requires members != []
    ensures RenderMembers(members) == Quote(members[0].key) + ":" + Render(members[0].value) + MoreMembers(members)
  {
  }

  lemma MembersTailAfterFirst(members: seq<Member>, rest: string)
    requires members != []
    ensures MembersTail(members, rest) == MoreMembers(members) + "}" + rest
  {
    if |members| == 1 {
      assert MoreMembers(members) + "}" + rest == "}" + rest;
    }
  }

  /** Concatenation regrouped to the right. */
  lemma AppendSix(a: string, b: string, c: string, d: string, e: string, f: string)
    ensures a + b + c + d + e + f == a + (b + (c + (d + e + f)))
  {
  }

  /** One step of ParseMembers once the key and the value have been parsed. */
  lemma MemberStep(s: string, m: Member, afterKey: string, tail: string, done: seq<Member>)
    requires ParseString(s) == Some((m.key, afterKey))
    requires afterKey != [] && afterKey[0] == ':'
    requires ParseValue(afterKey[1..]) == Some((m.value, tail))
    requires tail != [] && (tail[0] == ',' || tail[0] == '}')
    ensures tail[0] == '}' ==> ParseMembers(s, done) == Some((JObject(done + [m]), tail[1..]))
    ensures tail[0] == ',' ==> ParseMembers(s, done) == ParseMembers(tail[1..], done + [m])
  {
  }

  /** One rendered member: its key, then the colon, then its value. */
  lemma {:induction false} ParseMemberAt(m: Member, tail: string)
    requires Delimited(tail)
    ensures ParseString(Quote(m.key) + (":" + (Render(m.value) + tail))) == Some((m.key, ":" + (Render(m.value) + tail)))
    ensures ParseValue((":" + (Render(m.value) + tail))[1..]) == Some((m.value, tail))
    decreases m, 0
  {
    var afterKey := ":" + (Render(m.value) + tail);
    ParseQuoted(m.key, afterKey);
    assert afterKey[1..] == Render(m.value) + tail;
    ParseRendered(m.value, tail);
  }

  /** A rendered value never starts with `]`, so `[` followed by a value is
      not mistaken for an empty array. */
  lemma NotClosingBracket(j: Json)
    ensures |Render(j)| > 0 && Render(j)[0] != ']'
  {
    match j
    case JNumber(n) =>
      if n >= 0 { assert IsDigit(Render(j)[0]); }
    case _ =>
  }

  /** A document (object or array) survives serialization and parsing. */
  lemma DocumentRoundTrip(j: Json)
    requires j.JObject? || j.JArray?
    ensures ParseDocument(Render(j)) == Some(j)
  {
    ParseRendered(j, "");
    assert Render(j) + "" == Render(j);
  }
}
