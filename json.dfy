/** A JSON document model with a serializer and a parser: the model's
    stand-in for JSON.stringify and JSON.parse, which the key-value service
    and the directory cache use to store values as strings.

    The format is the compact JSON text JSON.stringify produces for the
    values the services store: no whitespace, numbers are non-negative
    integers, and inside a string literal only the quote and the backslash
    are escaped. The parser accepts exactly that format, and the main
    result of the module is the round trip Parse(Stringify(j)) == Some(j). */
module Json {
  import opened Wrappers
  import opened Text

  datatype Json =
    | JNull
    | JBool(b: bool)
    | JNum(n: nat)
    | JStr(s: string)
    | JArr(items: seq<Json>)
    | JObj(members: seq<Member>)

  datatype Member = Member(key: string, value: Json)

  // ---------------------------------------------------------------------------
  // Serializer
  // ---------------------------------------------------------------------------

  /** The characters of s, with a backslash put before every quote and
      every backslash. */
  function Escape(s: string): string
  {
    if s == [] then []
    else (if s[0] == '"' || s[0] == '\\' then ['\\', s[0]] else [s[0]]) + Escape(s[1..])
  }

  /** s as a JSON string literal. */
  function Quote(s: string): string
  {
    "\"" + Escape(s) + "\""
  }

  /** Escaping never shortens a string. */
  lemma {:induction false} EscapeLength(s: string)
    ensures |Escape(s)| >= |s|
  {
    if s != [] {
      EscapeLength(s[1..]);
    }
  }

  lemma QuoteLength(s: string)
    ensures |Quote(s)| >= |s| + 2
  {
    EscapeLength(s);
  }

  /** The parts separated by commas. */
  function Join(parts: seq<string>): string
  {
    if |parts| == 0 then ""
    else if |parts| == 1 then parts[0]
    else parts[0] + "," + Join(parts[1..])
  }

  /** The characters a serialized value can begin with. */
  predicate OpensValue(c: char) {
    c == 'n' || c == 't' || c == 'f' || c == '"' || c == '[' || c == '{' || IsDigit(c)
  }

  function Stringify(j: Json): (r: string)
    ensures |r| > 0 && OpensValue(r[0])
    decreases j, 1
  {
    match j
    case JNull => "null"
    case JBool(b) => if b then "true" else "false"
    case JNum(n) => NatToDecimal(n)
    case JStr(s) => Quote(s)
    case JArr(items) => "[" + Join(ItemTexts(items)) + "]"
    case JObj(ms) => "{" + Join(MemberTexts(ms)) + "}"
  }

  function ItemTexts(items: seq<Json>): (r: seq<string>)
    ensures |r| == |items|
    decreases JArr(items), 0
  {
    seq(|items|, i requires 0 <= i < |items| => Stringify(items[i]))
  }

  function MemberTexts(ms: seq<Member>): (r: seq<string>)
    ensures |r| == |ms|
    decreases JObj(ms), 0
  {
    seq(|ms|, i requires 0 <= i < |ms| => Quote(ms[i].key) + ":" + Stringify(ms[i].value))
  }

  // ---------------------------------------------------------------------------
  // Parser
  // ---------------------------------------------------------------------------

  /** Reads the rest of a string literal whose opening quote has been
      consumed: the decoded contents and the input after the closing
      quote. */
  function ParseString(s: string): (r: Option<(string, string)>)
    ensures r.Some? ==> |r.value.1| < |s|
    decreases |s|
  {
    if s == [] then None
    else if s[0] == '"' then Some(([], s[1..]))
    else if s[0] == '\\' then
      if |s| >= 2 && (s[1] == '"' || s[1] == '\\') then
        match ParseString(s[2..])
        case None => None
        case Some((body, rest)) => Some(([s[1]] + body, rest))
      else None
    else
      match ParseString(s[1..])
      case None => None
      case Some((body, rest)) => Some(([s[0]] + body, rest))
  }

  /** The length of the run of digits at the start of s. */
  function DigitRun(s: string): (n: nat)
    ensures n <= |s|
  {
    if s != [] && IsDigit(s[0]) then 1 + DigitRun(s[1..]) else 0
  }

  lemma {:induction false} DigitRunIsDigits(s: string)
    ensures AllDigits(s[..DigitRun(s)])
  {
    if s != [] && IsDigit(s[0]) {
      DigitRunIsDigits(s[1..]);
      assert s[..DigitRun(s)] == [s[0]] + s[1..][..DigitRun(s[1..])];
    }
  }

  /** Reads one value from the front of s: the value and the input after
      it. The first character decides the kind of value. */
  function ParseValue(s: string): (r: Option<(Json, string)>)
    ensures r.Some? ==> |r.value.1| < |s|
    decreases |s|, 1
  {
    if s == [] then None
    else if s[0] == 'n' then ParseKeyword(s, "null", JNull)
    else if s[0] == 't' then ParseKeyword(s, "true", JBool(true))
    else if s[0] == 'f' then ParseKeyword(s, "false", JBool(false))
    else if s[0] == '"' then ParseStringValue(s[1..])
    else if s[0] == '[' then ParseArray(s)
    else if s[0] == '{' then ParseObject(s)
    else if IsDigit(s[0]) then ParseNumber(s)
    else None
  }

  function ParseKeyword(s: string, word: string, j: Json): (r: Option<(Json, string)>)
    requires |word| > 0
    ensures r.Some? ==> |r.value.1| < |s|
  {
    if StartsWith(s, word) then Some((j, s[|word|..])) else None
  }

  function ParseStringValue(s: string): (r: Option<(Json, string)>)
    ensures r.Some? ==> |r.value.1| < |s|
  {
    match ParseString(s)
    case None => None
    case Some((t, rest)) => Some((JStr(t), rest))
  }

  function ParseNumber(s: string): (r: Option<(Json, string)>)
    requires s != [] && IsDigit(s[0])
    ensures r.Some? ==> |r.value.1| < |s|
  {
    var k := DigitRun(s);
    DigitRunIsDigits(s);
    Some((JNum(DecimalValue(s[..k])), s[k..]))
  }

  function ParseArray(s: string): (r: Option<(Json, string)>)
    requires s != [] && s[0] == '['
    ensures r.Some? ==> |r.value.1| < |s|
    decreases |s|, 0
  {
    if |s| >= 2 && s[1] == ']' then Some((JArr([]), s[2..]))
    else
      match ParseItems(s[1..])
      case None => None
      case Some((items, rest)) => Some((JArr(items), rest))
  }

  function ParseObject(s: string): (r: Option<(Json, string)>)
    requires s != [] && s[0] == '{'
    ensures r.Some? ==> |r.value.1| < |s|
    decreases |s|, 0
  {
    if |s| >= 2 && s[1] == '}' then Some((JObj([]), s[2..]))
    else
      match ParseMembers(s[1..])
      case None => None
      case Some((ms, rest)) => Some((JObj(ms), rest))
  }

  /** Reads `v,v,...,v]` after an opening bracket. */
  function ParseItems(s: string): (r: Option<(seq<Json>, string)>)
    ensures r.Some? ==> |r.value.1| < |s|
    decreases |s|, 2
  {
    match ParseValue(s)
    case None => None
    case Some((v, rest)) =>
      if rest == [] then None
      else if rest[0] == ']' then Some(([v], rest[1..]))
      else if rest[0] == ',' then
        match ParseItems(rest[1..])
        case None => None
        case Some((vs, rest')) => Some(([v] + vs, rest'))
      else None
  }

  /** Reads one member `"k":v`. */
  function ParseMember(s: string): (r: Option<(Member, string)>)
    ensures r.Some? ==> |r.value.1| < |s|
    decreases |s|, 1
  {
    if s == [] || s[0] != '"' then None
    else
      match ParseString(s[1..])
      case None => None
      case Some((k, afterKey)) =>
        if afterKey == [] || afterKey[0] != ':' then None
        else
          match ParseValue(afterKey[1..])
          case None => None
          case Some((v, rest)) => Some((Member(k, v), rest))
  }

  /** Reads `"k":v,...,"k":v}` after an opening brace. */
  function ParseMembers(s: string): (r: Option<(seq<Member>, string)>)
    ensures r.Some? ==> |r.value.1| < |s|
    decreases |s|, 2
  {
    match ParseMember(s)
    case None => None
    case Some((m, rest)) =>
      if rest == [] then None
      else if rest[0] == '}' then Some(([m], rest[1..]))
      else if rest[0] == ',' then
        match ParseMembers(rest[1..])
        case None => None
        case Some((ms, rest')) => Some(([m] + ms, rest'))
      else None
  }

  /** A whole document: one value and nothing after it. */
  function Parse(s: string): Option<Json>
  {
    match ParseValue(s)
    case Some((j, rest)) => if rest == [] then Some(j) else None
    case None => None
  }

  // ---------------------------------------------------------------------------
  // Round trip
  // ---------------------------------------------------------------------------

  /** What may follow a value inside a document: nothing, or the next
      separator or closing bracket. */
  predicate Delimited(rest: string) {
    rest == [] || rest[0] == ',' || rest[0] == ']' || rest[0] == '}'
  }

  lemma {:induction false} StringRoundTrip(s: string, rest: string)
    ensures ParseString(Escape(s) + "\"" + rest) == Some((s, rest))
    decreases |s|
  {
    if s == [] {
      assert Escape(s) + "\"" + rest == "\"" + rest;
    } else {
      StringRoundTrip(s[1..], rest);
      var head := if s[0] == '"' || s[0] == '\\' then ['\\', s[0]] else [s[0]];
      assert Escape(s) + "\"" + rest == head + (Escape(s[1..]) + "\"" + rest);
      assert [s[0]] + s[1..] == s;
    }
  }

  lemma {:induction false} DigitRunOfNumber(d: string, rest: string)
    requires AllDigits(d)
    requires rest == [] || !IsDigit(rest[0])
    ensures DigitRun(d + rest) == |d|
    decreases |d|
  {
    if d != [] {
      assert (d + rest)[1..] == d[1..] + rest;
      DigitRunOfNumber(d[1..], rest);
    } else {
      assert d + rest == rest;
    }
  }

  lemma NumberRoundTrip(n: nat, rest: string)
    requires Delimited(rest)
    ensures ParseValue(NatToDecimal(n) + rest) == Some((JNum(n), rest))
  {
    var d := NatToDecimal(n);
    var s := d + rest;
    DigitRunOfNumber(d, rest);
    assert s[..|d|] == d && s[|d|..] == rest;
    DecimalRoundTrip(n);
    assert IsDigit(s[0]);
  }

  lemma KeywordRoundTrip(word: string, j: Json, rest: string)
    requires word == "null" || word == "true" || word == "false"
    requires j == (if word == "null" then JNull else JBool(word == "true"))
    ensures ParseValue(word + rest) == Some((j, rest))
  {
    var s := word + rest;
    assert s[..|word|] == word && s[|word|..] == rest;
    assert s[0] == word[0];
  }

  lemma StringValueRoundTrip(t: string, rest: string)
    ensures ParseValue(Quote(t) + rest) == Some((JStr(t), rest))
  {
    var s := Quote(t) + rest;
    StringRoundTrip(t, rest);
    assert s[0] == '"';
    assert s[1..] == Escape(t) + "\"" + rest;
  }

  /** v, followed by any delimiter, is read back whole, leaving the
      delimiter. */
  ghost predicate ReadsBack(v: Json) {
    forall r :: Delimited(r) ==> ParseValue(Stringify(v) + r) == Some((v, r))
  }

  /** Every value followed by a delimiter is read back whole, leaving the
      delimiter. */
  lemma {:induction false} ValueRoundTrip(j: Json, rest: string)
    requires Delimited(rest)
    ensures ParseValue(Stringify(j) + rest) == Some((j, rest))
    decreases j
  {
    match j
    case JNull =>
      KeywordRoundTrip("null", j, rest);
    case JBool(b) =>
      KeywordRoundTrip(if b then "true" else "false", j, rest);
    case JNum(n) =>
      NumberRoundTrip(n, rest);
    case JStr(t) =>
      StringValueRoundTrip(t, rest);
    case JArr(items) =>
      forall i | 0 <= i < |items| ensures ReadsBack(items[i]) {
        forall r | Delimited(r) ensures ParseValue(Stringify(items[i]) + r) == Some((items[i], r)) {
          ValueRoundTrip(items[i], r);
        }
      }
      ArrayRoundTrip(items, rest);
    case JObj(ms) =>
      forall i | 0 <= i < |ms| ensures ReadsBack(ms[i].value) {
        forall r | Delimited(r) ensures ParseValue(Stringify(ms[i].value) + r) == Some((ms[i].value, r)) {
          ValueRoundTrip(ms[i].value, r);
        }
      }
      ObjectRoundTrip(ms, rest);
  }

  lemma ArrayRoundTrip(items: seq<Json>, rest: string)
    requires forall i :: 0 <= i < |items| ==> ReadsBack(items[i])
    ensures ParseValue(Stringify(JArr(items)) + rest) == Some((JArr(items), rest))
  {
    var body := Join(ItemTexts(items));
    var s := "[" + (body + ("]" + rest));
    Assoc4("[", body, "]", rest);
    Behead('[', body + ("]" + rest));
    if items == [] {
      assert body + ("]" + rest) == "]" + rest;
      Behead(']', rest);
      ParseEmptyList(s, '[', ']');
    } else {
      ItemsRoundTrip(items, rest);
      ItemTextsTail(items);
      JoinStartsWithFirst(ItemTexts(items));
      HeadOfAppend(body, "]" + rest);
      ParseArrayStep(s, items, rest);
    }
  }

  lemma ObjectRoundTrip(ms: seq<Member>, rest: string)
    requires forall i :: 0 <= i < |ms| ==> ReadsBack(ms[i].value)
    ensures ParseValue(Stringify(JObj(ms)) + rest) == Some((JObj(ms), rest))
  {
    var body := Join(MemberTexts(ms));
    var s := "{" + (body + ("}" + rest));
    Assoc4("{", body, "}", rest);
    Behead('{', body + ("}" + rest));
    if ms == [] {
      assert body + ("}" + rest) == "}" + rest;
      Behead('}', rest);
      ParseEmptyList(s, '{', '}');
    } else {
      MembersRoundTrip(ms, rest);
      MemberTextsTail(ms);
      JoinStartsWithFirst(MemberTexts(ms));
      HeadOfAppend(body, "}" + rest);
      ParseObjectStep(s, ms, rest);
    }
  }

  lemma ParseEmptyList(s: string, open: char, close: char)
    requires (open == '[' && close == ']') || (open == '{' && close == '}')
    requires |s| >= 2 && s[0] == open && s[1] == close
    ensures ParseValue(s) == Some((if open == '[' then JArr([]) else JObj([]), s[2..]))
  {
  }

  lemma ParseArrayStep(s: string, items: seq<Json>, rest: string)
    requires |s| >= 2 && s[0] == '[' && s[1] != ']'
    requires ParseItems(s[1..]) == Some((items, rest))
    ensures ParseValue(s) == Some((JArr(items), rest))
  {
  }

  lemma ParseObjectStep(s: string, ms: seq<Member>, rest: string)
    requires |s| >= 2 && s[0] == '{' && s[1] != '}'
    requires ParseMembers(s[1..]) == Some((ms, rest))
    ensures ParseValue(s) == Some((JObj(ms), rest))
  {
  }

  // Small facts about sequences, kept apart so that each proof above sees
  // only their conclusions.

  lemma Assoc3<T>(a: seq<T>, b: seq<T>, c: seq<T>)
    ensures (a + b) + c == a + (b + c)
  {
  }

  lemma Assoc4<T>(a: seq<T>, b: seq<T>, c: seq<T>, d: seq<T>)
    ensures ((a + b) + c) + d == a + (b + (c + d))
  {
  }

  lemma Behead<T>(x: T, s: seq<T>)
    ensures |[x] + s| == |s| + 1 && ([x] + s)[0] == x && ([x] + s)[1..] == s
  {
  }

  lemma HeadOfAppend<T>(a: seq<T>, b: seq<T>)
    requires |a| > 0
    ensures |a + b| > 0 && (a + b)[0] == a[0]
  {
  }

  lemma ConsTail<T>(s: seq<T>)
    requires |s| > 0
    ensures [s[0]] + s[1..] == s
  {
  }

  lemma Single<T>(s: seq<T>)
    requires |s| == 1
    ensures s == [s[0]]
  {
  }

  lemma JoinStartsWithFirst(parts: seq<string>)
    requires |parts| > 0 && |parts[0]| > 0
    ensures |Join(parts)| > 0 && Join(parts)[0] == parts[0][0]
  {
  }

  lemma JoinCons(parts: seq<string>, rest: string)
    requires |parts| > 1
    ensures Join(parts) + rest == parts[0] + ("," + (Join(parts[1..]) + rest))
  {
    Assoc4(parts[0], ",", Join(parts[1..]), rest);
  }

  // One step of the list parsers, stated on abstract inputs.

  lemma ParseItemsStep(s: string, v: Json, after: string, vs: seq<Json>, rest: string)
    requires ParseValue(s) == Some((v, after))
    requires after != [] && after[0] == ','
    requires ParseItems(after[1..]) == Some((vs, rest))
    ensures ParseItems(s) == Some(([v] + vs, rest))
  {
  }

  lemma ParseItemsLast(s: string, v: Json, after: string)
    requires ParseValue(s) == Some((v, after))
    requires after != [] && after[0] == ']'
    ensures ParseItems(s) == Some(([v], after[1..]))
  {
  }

  lemma ParseMemberStep(s: string, k: string, afterKey: string, v: Json, after: string)
    requires s != [] && s[0] == '"'
    requires ParseString(s[1..]) == Some((k, afterKey))
    requires afterKey != [] && afterKey[0] == ':'
    requires ParseValue(afterKey[1..]) == Some((v, after))
    ensures ParseMember(s) == Some((Member(k, v), after))
  {
  }

  lemma ParseMembersStep(s: string, m: Member, after: string, ms: seq<Member>, rest: string)
    requires ParseMember(s) == Some((m, after))
    requires after != [] && after[0] == ','
    requires ParseMembers(after[1..]) == Some((ms, rest))
    ensures ParseMembers(s) == Some(([m] + ms, rest))
  {
  }

  lemma ParseMembersLast(s: string, m: Member, after: string)
    requires ParseMember(s) == Some((m, after))
    requires after != [] && after[0] == '}'
    ensures ParseMembers(s) == Some(([m], after[1..]))
  {
  }

  // Arrays

  /** The last item of an array, followed by the closing bracket. */
  lemma LastItemRoundTrip(v: Json, rest: string)
    requires ReadsBack(v)
    ensures ParseItems(Stringify(v) + ("]" + rest)) == Some(([v], rest))
  {
    var after := "]" + rest;
    Behead(']', rest);
    assert Delimited(after);
    assert ParseValue(Stringify(v) + after) == Some((v, after));
    ParseItemsLast(Stringify(v) + after, v, after);
  }

  /** An item followed by a comma and the remaining items. */
  lemma NextItemRoundTrip(v: Json, tailText: string, vs: seq<Json>, rest: string)
    requires ReadsBack(v)
    requires ParseItems(tailText) == Some((vs, rest))
    ensures ParseItems(Stringify(v) + ("," + tailText)) == Some(([v] + vs, rest))
  {
    var after := "," + tailText;
    Behead(',', tailText);
    assert Delimited(after);
    assert ParseValue(Stringify(v) + after) == Some((v, after));
    ParseItemsStep(Stringify(v) + after, v, after, vs, rest);
  }

  /** The texts of the items after the first are the texts of the
      array's tail. */
  lemma ItemTextsTail(items: seq<Json>)
    requires |items| > 0
    ensures ItemTexts(items[1..]) == ItemTexts(items)[1..]
    ensures ItemTexts(items)[0] == Stringify(items[0])
  {
    var a, b := ItemTexts(items[1..]), ItemTexts(items)[1..];
    forall i | 0 <= i < |a| ensures a[i] == b[i] {
      assert items[1..][i] == items[i + 1];
    }
  }

  lemma {:induction false} ItemsRoundTrip(items: seq<Json>, rest: string)
    requires |items| > 0
    requires forall i :: 0 <= i < |items| ==> ReadsBack(items[i])
    ensures ParseItems(Join(ItemTexts(items)) + ("]" + rest)) == Some((items, rest))
    decreases |items|
  {
    var texts := ItemTexts(items);
    assert ReadsBack(items[0]);
    ItemTextsTail(items);
    if |items| == 1 {
      LastItemRoundTrip(items[0], rest);
      Single(items);
    } else {
      var tail := items[1..];
      assert forall i :: 0 <= i < |tail| ==> ReadsBack(tail[i]) by {
        assert forall i :: 0 <= i < |tail| ==> tail[i] == items[i + 1];
      }
      ItemsRoundTrip(tail, rest);
      NextItemRoundTrip(items[0], Join(ItemTexts(tail)) + ("]" + rest), tail, rest);
      JoinCons(texts, "]" + rest);
      ConsTail(items);
    }
  }

  // Objects

  /** One member `"k":v` followed by a delimiter. */
  lemma MemberRoundTrip(m: Member, after: string)
    requires Delimited(after) && ReadsBack(m.value)
    ensures ParseMember(Quote(m.key) + ":" + Stringify(m.value) + after) == Some((m, after))
  {
    var e := Escape(m.key);
    var value := Stringify(m.value);
    var afterKey := ":" + (value + after);
    var s := "\"" + (e + ("\"" + afterKey));
    Assoc4(Quote(m.key), ":", value, after);
    Assoc4("\"", e, "\"", afterKey);
    Behead('"', e + ("\"" + afterKey));
    StringRoundTrip(m.key, afterKey);
    Assoc3(e, "\"", afterKey);
    Behead(':', value + after);
    assert ParseValue(value + after) == Some((m.value, after));
    ParseMemberStep(s, m.key, afterKey, m.value, after);
  }

  /** The last member of an object, followed by the closing brace. */
  lemma LastMemberRoundTrip(m: Member, rest: string)
    requires ReadsBack(m.value)
    ensures ParseMembers(Quote(m.key) + ":" + Stringify(m.value) + ("}" + rest)) == Some(([m], rest))
  {
    var after := "}" + rest;
    Behead('}', rest);
    MemberRoundTrip(m, after);
    ParseMembersLast(Quote(m.key) + ":" + Stringify(m.value) + after, m, after);
  }

  /** A member followed by a comma and the remaining members. */
  lemma NextMemberRoundTrip(m: Member, tailText: string, ms: seq<Member>, rest: string)
    requires ReadsBack(m.value)
    requires ParseMembers(tailText) == Some((ms, rest))
    ensures ParseMembers(Quote(m.key) + ":" + Stringify(m.value) + ("," + tailText)) == Some(([m] + ms, rest))
  {
    var after := "," + tailText;
    Behead(',', tailText);
    MemberRoundTrip(m, after);
    ParseMembersStep(Quote(m.key) + ":" + Stringify(m.value) + after, m, after, ms, rest);
  }

  /** The texts of the members after the first are the texts of the
      object's tail. */
  lemma MemberTextsTail(ms: seq<Member>)
    requires |ms| > 0
    ensures MemberTexts(ms[1..]) == MemberTexts(ms)[1..]
    ensures MemberTexts(ms)[0] == Quote(ms[0].key) + ":" + Stringify(ms[0].value)
  {
    var a, b := MemberTexts(ms[1..]), MemberTexts(ms)[1..];
    forall i | 0 <= i < |a| ensures a[i] == b[i] {
      assert ms[1..][i] == ms[i + 1];
    }
  }

  lemma {:induction false} MembersRoundTrip(ms: seq<Member>, rest: string)
    requires |ms| > 0
    requires forall i :: 0 <= i < |ms| ==> ReadsBack(ms[i].value)
    ensures ParseMembers(Join(MemberTexts(ms)) + ("}" + rest)) == Some((ms, rest))
    decreases |ms|
  {
    var texts := MemberTexts(ms);
    assert ReadsBack(ms[0].value);
    MemberTextsTail(ms);
    if |ms| == 1 {
      LastMemberRoundTrip(ms[0], rest);
      Single(ms);
    } else {
      var tail := ms[1..];
      assert forall i :: 0 <= i < |tail| ==> ReadsBack(tail[i].value) by {
        assert forall i :: 0 <= i < |tail| ==> tail[i] == ms[i + 1];
      }
      MembersRoundTrip(tail, rest);
      NextMemberRoundTrip(ms[0], Join(MemberTexts(tail)) + ("}" + rest), tail, rest);
      JoinCons(texts, "}" + rest);
      ConsTail(ms);
    }
  }

  /** Parsing what was serialized gives back the document. */
  lemma ParseStringify(j: Json)
    ensures Parse(Stringify(j)) == Some(j)
  {
    ValueRoundTrip(j, []);
    assert Stringify(j) + [] == Stringify(j);
  }

  /** Serialization is injective, so a stored text identifies the value. */
  lemma StringifyInjective(a: Json, b: Json)
    requires Stringify(a) == Stringify(b)
    ensures a == b
  {
    ParseStringify(a);
    ParseStringify(b);
  }

  // ---------------------------------------------------------------------------
  // JavaScript truthiness and property access
  // ---------------------------------------------------------------------------

  /** Whether the parsed value is truthy in a JavaScript condition. */
  predicate Truthy(j: Json) {
    match j
    case JNull => false
    case JBool(b) => b
    case JNum(n) => n != 0
    case JStr(s) => s != ""
    case JArr(_) => true
    case JObj(_) => true
  }

  /** `o[key]` on a parsed object: the last member with that key (later
      duplicates win in JSON.parse); None for a missing key or a
      non-object. */
  function Get(o: Json, key: string): (r: Option<Json>)
    ensures r.Some? ==> o.JObj? && exists i :: 0 <= i < |o.members| && o.members[i] == Member(key, r.value)
    ensures r.None? ==> !o.JObj? || forall i :: 0 <= i < |o.members| ==> o.members[i].key != key
  {
    match o
    case JObj(ms) => LastValue(ms, key)
    case _ => None
  }

  function LastValue(ms: seq<Member>, key: string): (r: Option<Json>)
    ensures r.Some? ==> exists i :: 0 <= i < |ms| && ms[i] == Member(key, r.value)
    ensures r.None? ==> forall i :: 0 <= i < |ms| ==> ms[i].key != key
  {
    if ms == [] then None
    else if ms[|ms| - 1].key == key then Some(ms[|ms| - 1].value)
    else LastValue(ms[..|ms| - 1], key)
  }
}
