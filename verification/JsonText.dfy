// The text of a JSON tree: compact, ASCII only, with the names of each object sorted; and a reader
// for it (RFC 8259).
module JsonText {
  import opened EventPayload
  import opened Options
  import opened ResourceIds
  import opened Sums
  import opened TextOrder

  // ---------- string literals ----------

  function HexDigit(d: nat): char
    requires d < 16
  {
    "0123456789abcdef"[d]
  }

  // The last so many hexadecimal digits of a number.
  function Hex(n: nat, digits: nat): (s: string)
    ensures |s| == digits
  {
    if digits == 0 then "" else Hex(n / 16, digits - 1) + [HexDigit(n % 16)]
  }

  function Unit(n: nat): (s: string)
    requires n < 0x1_0000
    ensures |s| == 6 && s[0] == '\\' && s[1] == 'u'
  {
    "\\u" + Hex(n, 4)
  }

  // The surrogates of a character beyond the basic plane.
  function High(c: char): (n: nat)
    requires c > '\U{FFFF}'
    ensures 0xD800 <= n < 0xDC00
  {
    0xD800 + (c as int - 0x1_0000) / 0x400
  }

  function Low(c: char): (n: nat)
    requires c > '\U{FFFF}'
    ensures 0xDC00 <= n < 0xE000
  {
    0xDC00 + (c as int - 0x1_0000) % 0x400
  }

  function Escape(c: char): string {
    if c == '"' then "\\\""
    else if c == '\\' then "\\\\"
    else if c == '\n' then "\\n"
    else if c == '\r' then "\\r"
    else if c == '\t' then "\\t"
    else if c == '\U{08}' then "\\b"
    else if c == '\U{0C}' then "\\f"
    else if ' ' <= c <= '~' then [c]
    else if c <= '\U{FFFF}' then Unit(c as int)
    else Unit(High(c)) + Unit(Low(c))
  }

  function Escaped(s: string): string {
    if s == "" then "" else Escape(s[0]) + Escaped(s[1..])
  }

  function Quoted(s: string): string {
    "\"" + Escaped(s) + "\""
  }

  // ---------- reading a literal back (RFC 8259 section 7) ----------

  datatype Reading = Read(c: char, rest: string) | End(rest: string) | Malformed

  function HexValue(c: char): Option<nat> {
    if '0' <= c <= '9' then Some(c as int - '0' as int)
    else if 'a' <= c <= 'f' then Some(c as int - 'a' as int + 10)
    else if 'A' <= c <= 'F' then Some(c as int - 'A' as int + 10)
    else None
  }

  function ReadHex(s: string): Option<nat> {
    if s == "" then Some(0)
    else
      var init, last := ReadHex(s[..|s| - 1]), HexValue(s[|s| - 1]);
      if init.Some? && last.Some? then Some(16 * init.value + last.value) else None
  }

  // The value of \uXXXX at the front.
  function UnitValue(s: string): Option<nat> {
    if |s| < 6 || s[0] != '\\' || s[1] != 'u' then None else ReadHex(s[2..6])
  }

  function Combined(high: nat, low: nat): (n: nat)
    requires 0xD800 <= high < 0xDC00 && 0xDC00 <= low < 0xE000
    ensures 0x1_0000 <= n < 0x11_0000
  {
    0x1_0000 + (high - 0xD800) * 0x400 + (low - 0xDC00)
  }

  function ReadUnit(s: string): Reading {
    var high := UnitValue(s);
    if high == None || high.value > 0xFFFF || 0xDC00 <= high.value < 0xE000 then Malformed
    else if !(0xD800 <= high.value < 0xDC00) then Read(high.value as char, s[6..])
    else
      var low := UnitValue(s[6..]);
      if low == None || !(0xDC00 <= low.value < 0xE000) then Malformed
      else Read(Combined(high.value, low.value) as char, s[12..])
  }

  function ReadOne(s: string): Reading {
    if s == "" || s[0] < ' ' then Malformed
    else if s[0] == '"' then End(s[1..])
    else if s[0] != '\\' then Read(s[0], s[1..])
    else if |s| < 2 then Malformed
    else
      match s[1]
      case '"' => Read('"', s[2..])
      case '\\' => Read('\\', s[2..])
      case '/' => Read('/', s[2..])
      case 'b' => Read('\U{08}', s[2..])
      case 'f' => Read('\U{0C}', s[2..])
      case 'n' => Read('\n', s[2..])
      case 'r' => Read('\r', s[2..])
      case 't' => Read('\t', s[2..])
      case 'u' => ReadUnit(s)
      case _ => Malformed
  }

  // The text of a literal whose opening quote has been read, and what follows its closing quote.
  function ReadLiteral(s: string): (read: Option<(string, string)>)
    ensures read.Some? ==> |read.value.1| < |s|
    decreases |s|
  {
    match ReadOne(s)
    case Malformed => None
    case End(rest) => Some(("", rest))
    case Read(c, rest) =>
      if |rest| >= |s| then None
      else
        var more := ReadLiteral(rest);
        if more == None then None else Some(([c] + more.value.0, more.value.1))
  }

  lemma DigitReadsBack(d: nat)
    requires d < 16
    ensures HexValue(HexDigit(d)) == Some(d)
  {
  }

  function Power16(digits: nat): nat {
    if digits == 0 then 1 else 16 * Power16(digits - 1)
  }

  lemma {:induction false} HexReadsBack(n: nat, digits: nat)
    requires n < Power16(digits)
    ensures ReadHex(Hex(n, digits)) == Some(n)
  {
    if digits > 0 {
      var s := Hex(n, digits);
      HexReadsBack(n / 16, digits - 1);
      DigitReadsBack(n % 16);
      assert s[..|s| - 1] == Hex(n / 16, digits - 1);
    }
  }

  lemma UnitHasValue(n: nat, rest: string)
    requires n < 0x1_0000
    ensures UnitValue(Unit(n) + rest) == Some(n) && (Unit(n) + rest)[6..] == rest
  {
    HexReadsBack(n, 4);
    assert (Unit(n) + rest)[2..6] == Hex(n, 4);
  }

  lemma UnitReadsBack(c: char, rest: string)
    requires c <= '\U{FFFF}'
    ensures ReadOne(Unit(c as int) + rest) == Read(c, rest)
  {
    UnitHasValue(c as int, rest);
  }

  lemma PairReadsBack(c: char, rest: string)
    requires c > '\U{FFFF}'
    ensures ReadOne(Unit(High(c)) + (Unit(Low(c)) + rest)) == Read(c, rest)
  {
    var tail := Unit(Low(c)) + rest;
    UnitHasValue(High(c), tail);
    UnitHasValue(Low(c), rest);
    Recombined(c);
    UnitsRead(Unit(High(c)) + tail, tail, rest, High(c), Low(c), c);
  }

  lemma UnitsRead(s: string, tail: string, rest: string, high: nat, low: nat, c: char)
    requires |s| >= 12 && s[0] == '\\' && s[1] == 'u' && s[6..] == tail && tail[6..] == rest
    requires UnitValue(s) == Some(high) && UnitValue(tail) == Some(low)
    requires 0xD800 <= high < 0xDC00 && 0xDC00 <= low < 0xE000 && Combined(high, low) == c as int
    ensures ReadOne(s) == Read(c, rest)
  {
    assert s[12..] == s[6..][6..];
  }

  lemma Recombined(c: char)
    requires c > '\U{FFFF}'
    ensures Combined(High(c), Low(c)) == c as int
  {
    var n := c as int - 0x1_0000;
    assert n == n / 0x400 * 0x400 + n % 0x400;
  }

  lemma ShortReadsBack(c: char, rest: string)
    requires c in "\"\\\n\r\t\U{08}\U{0C}"
    ensures ReadOne(Escape(c) + rest) == Read(c, rest)
  {
    assert (Escape(c) + rest)[2..] == rest;
  }

  lemma SameReadsBack(c: char, rest: string)
    requires ' ' <= c <= '~' && c != '"' && c != '\\'
    ensures ReadOne([c] + rest) == Read(c, rest)
  {
    assert ([c] + rest)[1..] == rest;
  }

  lemma EscapeReadsBack(c: char, rest: string)
    ensures ReadOne(Escape(c) + rest) == Read(c, rest)
  {
    if c in "\"\\\n\r\t\U{08}\U{0C}" {
      ShortReadsBack(c, rest);
    } else if ' ' <= c <= '~' {
      SameReadsBack(c, rest);
    } else if c <= '\U{FFFF}' {
      UnitReadsBack(c, rest);
    } else {
      PairReadsBack(c, rest);
      Regrouped(Unit(High(c)), Unit(Low(c)), rest);
    }
  }

  lemma Regrouped(a: string, b: string, c: string)
    ensures a + b + c == a + (b + c)
  {
  }

  lemma LiteralOneMore(escape: string, c: char, more: string, text: string, rest: string)
    requires escape != "" && ReadOne(escape + more) == Read(c, more)
    requires ReadLiteral(more) == Some((text, rest))
    ensures ReadLiteral(escape + more) == Some(([c] + text, rest))
  {
  }

  lemma EscapedOneMore(s: string, rest: string)
    requires s != ""
    ensures Escaped(s) + rest == Escape(s[0]) + (Escaped(s[1..]) + rest) && Escape(s[0]) != ""
    ensures s == [s[0]] + s[1..]
  {
    Regrouped(Escape(s[0]), Escaped(s[1..]), rest);
  }

  // Every text reads back from its literal, whatever follows.
  lemma {:induction false} LiteralReadsBack(s: string, rest: string)
    ensures ReadLiteral(Escaped(s) + ("\"" + rest)) == Some((s, rest))
  {
    var close := "\"" + rest;
    if s == "" {
      assert Escaped(s) + close == close && close[1..] == rest;
    } else {
      LiteralReadsBack(s[1..], rest);
      EscapedOneMore(s, close);
      EscapeReadsBack(s[0], Escaped(s[1..]) + close);
      LiteralOneMore(Escape(s[0]), s[0], Escaped(s[1..]) + close, s[1..], rest);
    }
  }

  // ---------- trees ----------

  function FirstOf(keys: set<string>): (first: string)
    requires keys != {}
    ensures first in keys && forall key :: key in keys ==> StringLe(first, key)
  {
    FirstExists(keys);
    FirstIsOne(keys);
    var first :| first in keys && forall key :: key in keys ==> StringLe(first, key);
    first
  }

  lemma FirstIsOne(keys: set<string>)
    ensures forall a, b :: a in keys && b in keys && StringLe(a, b) && StringLe(b, a) ==> a == b
  {
    forall a, b | a in keys && b in keys && StringLe(a, b) && StringLe(b, a) ensures a == b {
      StringLeTotal(a, b);
    }
  }

  lemma {:induction false} FirstExists(keys: set<string>)
    requires keys != {}
    ensures exists first :: first in keys && forall key :: key in keys ==> StringLe(first, key)
  {
    var some :| some in keys;
    var others := keys - {some};
    if others == {} {
      StringLeTotal(some, some);
      assert keys == {some};
    } else {
      FirstExists(others);
      var first :| first in others && forall key :: key in others ==> StringLe(first, key);
      StringLeTotal(some, first);
      StringLeTotal(some, some);
      var least := if StringLe(some, first) then some else first;
      forall key | key in keys ensures StringLe(least, key) {
        if key != some && least == some {
          StringLeTransitive(some, first, key);
        }
      }
    }
  }

  function Print(j: Json): string
    decreases j, 1, 0
  {
    match j
    case Null => "null"
    case Truth(value) => if value then "true" else "false"
    case Number(n) => PrintInt(n)
    case Text(text) => Quoted(text)
    case List(items) => "[" + Items(j, 0) + "]"
    case Object(fields) => "{" + Members(j, fields.Keys) + "}"
  }

  function Items(j: Json, i: nat): string
    requires j.List? && i <= |j.items|
    decreases j, 0, |j.items| - i
  {
    if i == |j.items| then ""
    else Print(j.items[i]) + (if i + 1 == |j.items| then "" else "," + Items(j, i + 1))
  }

  function Members(j: Json, keys: set<string>): string
    requires j.Object? && keys <= j.fields.Keys
    decreases j, 0, |keys|
  {
    if keys == {} then ""
    else
      var key := FirstOf(keys);
      Quoted(key) + ":" + Print(j.fields[key]) + (if keys == {key} then "" else "," + Members(j, keys - {key}))
  }

  // ---------- reading trees back ----------

  type ReadTree = Option<(Json, string)>

  // How many digits stand at the front.
  function DigitRun(s: string): (n: nat)
    ensures n <= |s|
  {
    if s == "" || !('0' <= s[0] <= '9') then 0 else 1 + DigitRun(s[1..])
  }

  function ReadNumber(s: string): (read: ReadTree)
    requires s != ""
    ensures read.Some? ==> |read.value.1| < |s|
  {
    var n := if s[0] == '-' then 1 + DigitRun(s[1..]) else DigitRun(s);
    var number := ParseInt(s[..n]);
    if n == 0 || number == None then None else Some((Number(number.value), s[n..]))
  }

  function ReadWord(s: string, word: string, j: Json): (read: ReadTree)
    requires word != ""
    ensures read.Some? ==> |read.value.1| < |s|
  {
    if |s| >= |word| && s[..|word|] == word then Some((j, s[|word|..])) else None
  }

  // The tree at the front, and what follows it.
  function ReadValue(s: string): (read: ReadTree)
    ensures read.Some? ==> |read.value.1| < |s|
    decreases |s|, 1
  {
    if s == "" then None
    else
      match s[0]
      case '"' =>
        var literal := ReadLiteral(s[1..]);
        if literal == None then None else Some((Text(literal.value.0), literal.value.1))
      case '{' => if |s| > 1 && s[1] == '}' then Some((Object(map[]), s[2..])) else ReadMembers(s[1..], map[])
      case '[' => if |s| > 1 && s[1] == ']' then Some((List([]), s[2..])) else ReadItems(s[1..], [])
      case 'n' => ReadWord(s, "null", Null)
      case 't' => ReadWord(s, "true", Truth(true))
      case 'f' => ReadWord(s, "false", Truth(false))
      case _ => ReadNumber(s)
  }

  // The members that are left of an object some of whose members have been read.
  function ReadMembers(s: string, sofar: map<string, Json>): (read: ReadTree)
    ensures read.Some? ==> |read.value.1| < |s|
    decreases |s|, 0
  {
    if s == "" || s[0] != '"' then None
    else
      var key := ReadLiteral(s[1..]);
      if key == None || key.value.1 == "" || key.value.1[0] != ':' then None
      else
        var value := ReadValue(key.value.1[1..]);
        if value == None || value.value.1 == "" then None
        else
          var more, rest := sofar[key.value.0 := value.value.0], value.value.1;
          if rest[0] == '}' then Some((Object(more), rest[1..]))
          else if rest[0] == ',' then ReadMembers(rest[1..], more)
          else None
  }

  function ReadItems(s: string, sofar: seq<Json>): (read: ReadTree)
    ensures read.Some? ==> |read.value.1| < |s|
    decreases |s|, 2
  {
    var value := ReadValue(s);
    if value == None || value.value.1 == "" then None
    else
      var more, rest := sofar + [value.value.0], value.value.1;
      if rest[0] == ']' then Some((List(more), rest[1..]))
      else if rest[0] == ',' then ReadItems(rest[1..], more)
      else None
  }

  // What may follow a number without being taken for a part of it.
  predicate EndsNumber(rest: string) {
    rest != "" ==> !('0' <= rest[0] <= '9')
  }

  lemma {:induction false} DigitRunStops(digits: string, rest: string)
    requires IsDigits(digits) || digits == ""
    requires EndsNumber(rest)
    ensures DigitRun(digits + rest) == |digits|
  {
    if digits == "" {
      assert digits + rest == rest;
    } else {
      assert (digits + rest)[1..] == digits[1..] + rest;
      DigitRunStops(digits[1..], rest);
    }
  }

  lemma NumberReadsBack(n: int, rest: string)
    requires EndsNumber(rest)
    ensures ReadValue(PrintInt(n) + rest) == Some((Number(n), rest))
  {
    var digits := PrintNat(if n < 0 then -n else n);
    ParseIntInvertsPrint(n);
    ParseNatInvertsPrint(if n < 0 then -n else n);
    DigitsRead(digits, n < 0, PrintInt(n), n, rest);
  }

  lemma DigitsRead(digits: string, negative: bool, printed: string, n: int, rest: string)
    requires IsDigits(digits) && printed == (if negative then "-" + digits else digits)
    requires ParseInt(printed) == Some(n) && EndsNumber(rest)
    ensures ReadValue(printed + rest) == Some((Number(n), rest))
  {
    var s := printed + rest;
    DigitRunStops(digits, rest);
    if negative {
      assert s[1..] == digits + rest;
    }
    assert s[..|printed|] == printed && s[|printed|..] == rest;
    assert s[0] == '-' || '0' <= s[0] <= '9';
  }

  lemma WordReadsBack(word: string, j: Json, rest: string)
    requires word != ""
    ensures ReadWord(word + rest, word, j) == Some((j, rest))
  {
  }

  lemma Unquoted(body: string, rest: string)
    ensures ("\"" + body + "\"" + rest)[1..] == body + ("\"" + rest)
  {
  }

  lemma KeyReadsBack(key: string, rest: string)
    ensures ReadLiteral((Quoted(key) + rest)[1..]) == Some((key, rest))
  {
    LiteralReadsBack(key, rest);
    Unquoted(Escaped(key), rest);
  }

  lemma TextReads(literal: string, text: string, rest: string)
    requires literal != "" && literal[0] == '"' && ReadLiteral((literal + rest)[1..]) == Some((text, rest))
    ensures ReadValue(literal + rest) == Some((Text(text), rest))
  {
  }

  lemma TextReadsBack(text: string, rest: string)
    ensures ReadValue(Quoted(text) + rest) == Some((Text(text), rest))
  {
    KeyReadsBack(text, rest);
    TextReads(Quoted(text), text, rest);
  }

  // One member is read, and what comes after it is looked at.
  lemma MemberReads(
    name: string, key: string, v: string, value: Json, tail: string, rest: string, sofar: map<string, Json>)
    requires name != "" && name[0] == '"' && tail == ":" + v + rest
    requires ReadLiteral((name + tail)[1..]) == Some((key, tail))
    requires ReadValue(v + rest) == Some((value, rest)) && rest != ""
    ensures ReadMembers(name + tail, sofar)
         == (if rest[0] == '}' then Some((Object(sofar[key := value]), rest[1..]))
             else if rest[0] == ',' then ReadMembers(rest[1..], sofar[key := value])
             else None)
  {
    assert tail[1..] == v + rest;
  }

  lemma MemberReadsBack(key: string, value: Json, rest: string, sofar: map<string, Json>)
    requires ReadValue(Print(value) + rest) == Some((value, rest)) && rest != ""
    ensures ReadMembers(Quoted(key) + (":" + Print(value) + rest), sofar)
         == (if rest[0] == '}' then Some((Object(sofar[key := value]), rest[1..]))
             else if rest[0] == ',' then ReadMembers(rest[1..], sofar[key := value])
             else None)
  {
    var tail := ":" + Print(value) + rest;
    KeyReadsBack(key, tail);
    MemberReads(Quoted(key), key, Print(value), value, tail, rest, sofar);
  }

  lemma MoreOrClosed(more: string, close: char, rest: string)
    requires more == "" || more[0] == ','
    ensures var tail := more + [close] + rest;
            && tail != "" && tail[0] == (if more == "" then close else ',')
            && tail[1..] == if more == "" then rest else more[1..] + [close] + rest
  {
    var tail := more + [close] + rest;
    if more == "" {
      assert tail == [close] + rest;
    }
  }

  lemma Closed(name: string, v: string, more: string, close: string, rest: string)
    ensures name + ":" + v + more + close + rest == name + (":" + v + (more + close + rest))
  {
  }

  // Every tree reads back from its text, whatever follows but a digit.
  lemma {:induction false} TreeReadsBack(j: Json, rest: string)
    requires EndsNumber(rest)
    ensures ReadValue(Print(j) + rest) == Some((j, rest))
    decreases j, 1, 0
  {
    match j {
      case Null => WordReadsBack("null", j, rest);
      case Truth(value) => WordReadsBack(if value then "true" else "false", j, rest);
      case Number(n) => NumberReadsBack(n, rest);
      case Text(text) => TextReadsBack(text, rest);
      case List(items) => ListReadsBack(j, rest);
      case Object(fields) => ObjectReadsBack(j, rest);
    }
  }

  lemma Braced(members: string, rest: string)
    requires members != "" && members[0] == '"'
    ensures ReadValue("{" + members + "}" + rest) == ReadMembers(members + "}" + rest, map[])
  {
    var s := "{" + members + "}" + rest;
    assert s[1..] == members + "}" + rest;
  }

  lemma EmptyReadsBack(rest: string)
    ensures ReadValue("{" + "" + "}" + rest) == Some((Object(map[]), rest))
    ensures ReadValue("[" + "" + "]" + rest) == Some((List([]), rest))
  {
    assert ("{" + "" + "}" + rest)[2..] == rest;
    assert ("[" + "" + "]" + rest)[2..] == rest;
  }

  lemma FirstMember(j: Json, keys: set<string>)
    requires j.Object? && keys <= j.fields.Keys && keys != {}
    ensures Members(j, keys) != "" && Members(j, keys)[0] == '"'
  {
  }

  lemma {:induction false} ObjectReadsBack(j: Json, rest: string)
    requires j.Object?
    ensures ReadValue(Print(j) + rest) == Some((j, rest))
    decreases j, 0, |j.fields| + 1
  {
    var keys := j.fields.Keys;
    if keys == {} {
      assert j.fields == map[];
      EmptyReadsBack(rest);
    } else {
      FirstMember(j, keys);
      Braced(Members(j, keys), rest);
      MembersReadBack(j, keys, map[], rest);
      assert map[] + Part(j.fields, keys) == j.fields;
    }
  }

  function Part(fields: map<string, Json>, keys: set<string>): map<string, Json> {
    map key | key in fields && key in keys :: fields[key]
  }

  lemma {:induction false} MembersReadBack(j: Json, keys: set<string>, sofar: map<string, Json>, rest: string)
    requires j.Object? && keys <= j.fields.Keys && keys != {}
    ensures ReadMembers(Members(j, keys) + "}" + rest, sofar) == Some((Object(sofar + Part(j.fields, keys)), rest))
    decreases j, 0, |keys|
  {
    var key := FirstOf(keys);
    var value, others := j.fields[key], keys - {key};
    var more := if keys == {key} then "" else "," + Members(j, others);
    TreeReadsBack(value, more + "}" + rest);
    MemberThenMore(key, value, more, sofar, rest);
    PartWith(j.fields, keys, key, sofar);
    if keys != {key} {
      MembersReadBack(j, others, sofar[key := value], rest);
      assert more[1..] == Members(j, others);
    }
  }

  lemma MemberThenMore(key: string, value: Json, more: string, sofar: map<string, Json>, rest: string)
    requires ReadValue(Print(value) + (more + "}" + rest)) == Some((value, more + "}" + rest))
    requires more == "" || more[0] == ','
    ensures ReadMembers(Quoted(key) + ":" + Print(value) + more + "}" + rest, sofar)
         == if more == "" then Some((Object(sofar[key := value]), rest))
            else ReadMembers(more[1..] + "}" + rest, sofar[key := value])
  {
    MemberReadsBack(key, value, more + "}" + rest, sofar);
    Closed(Quoted(key), Print(value), more, "}", rest);
    MoreOrClosed(more, '}', rest);
  }

  lemma PartWith(fields: map<string, Json>, keys: set<string>, key: string, sofar: map<string, Json>)
    requires key in keys && key in fields
    ensures sofar + Part(fields, keys) == sofar[key := fields[key]] + Part(fields, keys - {key})
    ensures keys == {key} ==> sofar + Part(fields, keys) == sofar[key := fields[key]]
  {
  }

  lemma {:induction false} ListReadsBack(j: Json, rest: string)
    requires j.List?
    ensures ReadValue(Print(j) + rest) == Some((j, rest))
    decreases j, 0, |j.items| + 1
  {
    if j.items == [] {
      assert Items(j, 0) == "";
      EmptyReadsBack(rest);
    } else {
      FirstItem(j, rest);
      Bracketed(Items(j, 0), rest);
      ItemsReadBack(j, 0, [], rest);
      assert [] + j.items[0..] == j.items;
    }
  }

  lemma Bracketed(items: string, rest: string)
    requires items != "" && items[0] != ']'
    ensures ReadValue("[" + items + "]" + rest) == ReadItems(items + "]" + rest, [])
  {
    var s := "[" + items + "]" + rest;
    assert s[1..] == items + "]" + rest;
  }

  // No value begins with a closing bracket.
  lemma FirstItem(j: Json, rest: string)
    requires j.List? && j.items != []
    ensures Print(j.items[0]) != "" && Print(j.items[0])[0] != ']'
    ensures |Items(j, 0)| > 0 && Items(j, 0)[0] != ']'
  {
    var item := j.items[0];
    if item.Number? {
      ParseNatInvertsPrint(if item.n < 0 then -item.n else item.n);
    }
  }

  lemma {:induction false} ItemsReadBack(j: Json, i: nat, sofar: seq<Json>, rest: string)
    requires j.List? && i < |j.items|
    ensures ReadItems(Items(j, i) + "]" + rest, sofar) == Some((List(sofar + j.items[i..]), rest))
    decreases j, 0, |j.items| - i
  {
    var value := j.items[i];
    var more := if i + 1 == |j.items| then "" else "," + Items(j, i + 1);
    TreeReadsBack(value, more + "]" + rest);
    ItemThenMore(value, Print(value), more, sofar, rest);
    if i + 1 == |j.items| {
      assert sofar + j.items[i..] == sofar + [value];
    } else {
      ItemsReadBack(j, i + 1, sofar + [value], rest);
      assert more[1..] == Items(j, i + 1);
      assert sofar + j.items[i..] == sofar + [value] + j.items[i + 1..];
    }
  }

  lemma ItemThenMore(value: Json, v: string, more: string, sofar: seq<Json>, rest: string)
    requires ReadValue(v + (more + "]" + rest)) == Some((value, more + "]" + rest))
    requires more == "" || more[0] == ','
    ensures ReadItems(v + more + "]" + rest, sofar)
         == if more == "" then Some((List(sofar + [value]), rest))
            else ReadItems(more[1..] + "]" + rest, sofar + [value])
  {
    Regrouped(v, more, "]");
    Regrouped(v, more + "]", rest);
    MoreOrClosed(more, ']', rest);
  }

  // ---------- how long they are ----------

  type Cost = (string, Json) -> nat

  // What each member of an object costs.
  function Costs(fields: map<string, Json>, cost: Cost): map<string, nat> {
    map key | key in fields :: cost(key, fields[key])
  }

  ghost function TotalCost(fields: map<string, Json>, cost: Cost): nat {
    Total(Costs(fields, cost))
  }

  lemma CostWith(fields: map<string, Json>, key: string, value: Json, cost: Cost)
    requires key !in fields
    ensures TotalCost(fields[key := value], cost) == TotalCost(fields, cost) + cost(key, value)
  {
    assert Costs(fields[key := value], cost) == Costs(fields, cost)[key := cost(key, value)];
    TotalWith(Costs(fields, cost), key, cost(key, value));
  }

  // In print: name, colon, value, and the comma or brace after it.
  ghost function Printed(): Cost {
    (key: string, value: Json) => |Quoted(key)| + |Print(value)| + 2
  }

  function Chosen(costs: map<string, nat>, keys: set<string>): map<string, nat> {
    map key | key in costs && key in keys :: costs[key]
  }

  lemma ChosenWithout(costs: map<string, nat>, keys: set<string>, key: string)
    requires key in keys && key in costs
    ensures Total(Chosen(costs, keys)) == costs[key] + Total(Chosen(costs, keys - {key}))
  {
    TotalWithout(Chosen(costs, keys), key);
    assert Chosen(costs, keys) - {key} == Chosen(costs, keys - {key});
  }

  lemma {:induction false} MembersAddUp(j: Json, keys: set<string>)
    requires j.Object? && keys <= j.fields.Keys && keys != {}
    ensures |Members(j, keys)| + 1 == Total(Chosen(Costs(j.fields, Printed()), keys))
    decreases |keys|
  {
    var key, costs := FirstOf(keys), Costs(j.fields, Printed());
    ChosenWithout(costs, keys, key);
    if keys == {key} {
      assert Chosen(costs, keys - {key}) == map[];
    } else {
      MembersAddUp(j, keys - {key});
    }
  }

  // The length of an object is what its members cost and a brace, in whatever order they stand.
  lemma ObjectLength(fields: map<string, Json>)
    requires fields != map[]
    ensures |Print(Object(fields))| == 1 + TotalCost(fields, Printed())
  {
    MembersAddUp(Object(fields), fields.Keys);
    assert Chosen(Costs(fields, Printed()), fields.Keys) == Costs(fields, Printed());
  }

  // One more member makes an object longer by what it costs.
  lemma MemberAdds(fields: map<string, Json>, key: string, value: Json)
    requires fields != map[] && key !in fields
    ensures |Print(Object(fields[key := value]))| == |Print(Object(fields))| + |Quoted(key)| + |Print(value)| + 2
  {
    ObjectLength(fields);
    ObjectLength(fields[key := value]);
    CostWith(fields, key, value, Printed());
  }

  predicate Unescaped(s: string) {
    forall i :: 0 <= i < |s| ==> 'a' <= s[i] <= 'z' || s[i] == '_'
  }

  // Letters and underscores are not escaped.
  lemma {:induction false} UnescapedIsQuoted(s: string)
    requires Unescaped(s)
    ensures Quoted(s) == "\"" + s + "\""
  {
    if s != "" {
      UnescapedIsQuoted(s[1..]);
      assert Quoted(s[1..]) == "\"" + s[1..] + "\"";
      assert Escaped(s[1..]) == Quoted(s[1..])[1..|Quoted(s[1..])| - 1] == s[1..];
      assert s == [s[0]] + s[1..];
    }
  }
}
