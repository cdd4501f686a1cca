/**
 * SimpleJSON (game_server/json.cpp, json.h): the server's flat, non-conforming
 * subset of JSON. An object is a map from key to PRE-RENDERED value text;
 * the serialisers are string builders and the deserialiser splits on commas
 * and colons. Strings are sequences of code points; every delimiter the codec
 * looks at is ASCII, and UTF-8 never puts an ASCII byte inside a multi-byte
 * character, so scanning code points finds the same delimiters as scanning bytes.
 */
module SimpleJson {
  import opened Wrappers
  import opened Cards

  type JsonObject = map<string, string>
  type NestedObject = map<string, seq<map<string, string>>>

  /** The exceptions the codec throws. */
  datatype JsonError = InvalidArgument(what: string) | OutOfRange(what: string)

  // ---------------------------------------------------------------------
  // Searching in strings (std::string::find, rfind, find_first_not_of, ...)
  // ---------------------------------------------------------------------

  /** std::string::find for one character; None stands for npos. */
  function IndexOf(s: string, c: char): (r: Option<nat>)
    ensures r.Some? ==> r.value < |s|
  {
    if s == [] then None
    else if s[0] == c then Some(0)
    else match IndexOf(s[1..], c)
      case None => None
      case Some(i) => Some(i + 1)
  }

  /** `find` gives npos exactly when the character is absent, and otherwise
      the position of its first occurrence. */
  lemma {:induction false} IndexOfSpec(s: string, c: char)
    ensures IndexOf(s, c).None? <==> c !in s
    ensures IndexOf(s, c).Some? ==> s[IndexOf(s, c).value] == c && c !in s[..IndexOf(s, c).value]
  {
    if s != [] && s[0] != c {
      IndexOfSpec(s[1..], c);
      assert s == [s[0]] + s[1..];
      match IndexOf(s[1..], c)
      case None =>
      case Some(i) => assert s[..i + 1] == [s[0]] + s[1..][..i];
    }
  }

  lemma IndexOfAt(s: string, c: char, i: nat)
    requires i < |s| && s[i] == c && c !in s[..i]
    ensures IndexOf(s, c) == Some(i)
  {
    IndexOfSpec(s, c);
    assert s[i] in s;
    var j := IndexOf(s, c).value;
  }

  /** std::string::rfind for one character. */
  function LastIndexOf(s: string, c: char): (r: Option<nat>)
    ensures r.Some? ==> r.value < |s|
  {
    if s == [] then None
    else if s[|s| - 1] == c then Some(|s| - 1)
    else LastIndexOf(s[..|s| - 1], c)
  }

  lemma {:induction false} LastIndexOfSpec(s: string, c: char)
    ensures LastIndexOf(s, c).None? <==> c !in s
    ensures LastIndexOf(s, c).Some? ==> var i := LastIndexOf(s, c).value; s[i] == c && c !in s[i + 1..]
  {
    if s != [] && s[|s| - 1] != c {
      var p := s[..|s| - 1];
      LastIndexOfSpec(p, c);
      assert s == p + [s[|s| - 1]];
      match LastIndexOf(p, c)
      case None =>
      case Some(i) => assert s[i + 1..] == p[i + 1..] + [s[|s| - 1]];
    }
  }

  /** The characters `trim` strips. */
  predicate IsBlank(c: char)
  {
    c == ' ' || c == '\t'
  }

  predicate AllBlank(s: string)
  {
    forall i :: 0 <= i < |s| ==> IsBlank(s[i])
  }

  /** find_first_not_of(" \t"). */
  function FirstNonBlank(s: string): (r: Option<nat>)
    ensures r.Some? ==> r.value < |s|
  {
    if s == [] then None
    else if !IsBlank(s[0]) then Some(0)
    else match FirstNonBlank(s[1..])
      case None => None
      case Some(i) => Some(i + 1)
  }

  lemma {:induction false} FirstNonBlankSpec(s: string)
    ensures FirstNonBlank(s).None? <==> AllBlank(s)
    ensures FirstNonBlank(s).Some? ==> var i := FirstNonBlank(s).value; !IsBlank(s[i]) && AllBlank(s[..i])
  {
    if s != [] && IsBlank(s[0]) {
      FirstNonBlankSpec(s[1..]);
      assert forall k :: 0 < k < |s| ==> s[k] == s[1..][k - 1];
      match FirstNonBlank(s[1..])
      case None =>
      case Some(i) => assert s[..i + 1] == [s[0]] + s[1..][..i];
    }
  }

  /** find_last_not_of(" \t"). */
  function LastNonBlank(s: string): (r: Option<nat>)
    ensures r.Some? ==> r.value < |s|
  {
    if s == [] then None
    else if !IsBlank(s[|s| - 1]) then Some(|s| - 1)
    else LastNonBlank(s[..|s| - 1])
  }

  lemma {:induction false} LastNonBlankSpec(s: string)
    ensures LastNonBlank(s).None? <==> AllBlank(s)
    ensures LastNonBlank(s).Some? ==> var i := LastNonBlank(s).value; !IsBlank(s[i]) && AllBlank(s[i + 1..])
  {
    if s != [] && IsBlank(s[|s| - 1]) {
      var p := s[..|s| - 1];
      LastNonBlankSpec(p);
      assert s == p + [s[|s| - 1]];
      match LastNonBlank(p)
      case None =>
      case Some(i) => assert s[i + 1..] == p[i + 1..] + [s[|s| - 1]];
    }
  }

  /** The first non-blank never comes after the last one. */
  lemma NonBlankBounds(s: string)
    ensures FirstNonBlank(s).Some? <==> LastNonBlank(s).Some?
    ensures FirstNonBlank(s).Some? ==> FirstNonBlank(s).value <= LastNonBlank(s).value
  {
    FirstNonBlankSpec(s);
    LastNonBlankSpec(s);
    if FirstNonBlank(s).Some? && LastNonBlank(s).Some? {
      var f, l := FirstNonBlank(s).value, LastNonBlank(s).value;
    }
  }

  /** SimpleJSON::trim. On a string of blanks only, find_first_not_of gives
      npos and substr(npos, ...) throws std::out_of_range. */
  function Trim(s: string): (r: Result<string, JsonError>)
  {
    match FirstNonBlank(s)
    case None => Err(OutOfRange("basic_string::substr"))
    case Some(first) =>
      match LastNonBlank(s)
      case None => Err(OutOfRange("basic_string::substr"))
      case Some(last) =>
        NonBlankBounds(s);
        Ok(s[first..last + 1])
  }

  /** `trim` fails exactly on blank-only text; otherwise it returns the text
      between blank runs at both ends, which starts and ends with a non-blank. */
  lemma TrimSpec(s: string)
    ensures Trim(s).Err? <==> AllBlank(s)
    ensures Trim(s).Ok? ==> var t := Trim(s).value;
      && t != [] && !IsBlank(t[0]) && !IsBlank(t[|t| - 1])
      && exists i, j :: 0 <= i <= j <= |s| && s[i..j] == t && AllBlank(s[..i]) && AllBlank(s[j..])
  {
    FirstNonBlankSpec(s);
    LastNonBlankSpec(s);
    NonBlankBounds(s);
    if !AllBlank(s) {
      var f, l := FirstNonBlank(s).value, LastNonBlank(s).value;
      assert s[f..l + 1][0] == s[f];
      assert s[f..l + 1][l - f] == s[l];
      assert s[f..l + 1] == Trim(s).value;
    }
  }

  /** Leading blanks do not change what `trim` returns for a string that
      starts and ends with a non-blank. */
  lemma TrimPadded(pre: string, t: string)
    requires AllBlank(pre)
    requires t != [] && !IsBlank(t[0]) && !IsBlank(t[|t| - 1])
    ensures Trim(pre + t) == Ok(t)
  {
    var s := pre + t;
    assert s[|pre|] == t[0];
    assert s[|s| - 1] == t[|t| - 1];
    assert s[..|pre|] == pre;
    FirstNonBlankAt(s, |pre|);
    LastNonBlankAt(s, |s| - 1);
    assert s[|pre|..|s|] == t;
  }

  lemma FirstNonBlankAt(s: string, i: nat)
    requires i < |s| && !IsBlank(s[i]) && AllBlank(s[..i])
    ensures FirstNonBlank(s) == Some(i)
  {
    FirstNonBlankSpec(s);
    var j := FirstNonBlank(s).value;
  }

  lemma LastNonBlankAt(s: string, i: nat)
    requires i == |s| - 1 && !IsBlank(s[i])
    ensures LastNonBlank(s) == Some(i)
  {
  }

  // ---------------------------------------------------------------------
  // Quoting
  // ---------------------------------------------------------------------

  /** What assign_string stores: the value between double quotes, unescaped. */
  function Quote(s: string): (r: string)
    ensures |r| == |s| + 2 && r[0] == '"' && r[|r| - 1] == '"'
  {
    "\"" + s + "\""
  }

  /** game_server::remove_quotes, and the quote stripping deserialize_object
      applies to every (non-empty) key and value: one enclosing pair of
      double quotes is dropped. For the one-character string "\"",
      substr(1, size - 2) keeps nothing. */
  function RemoveQuotes(s: string): (r: string)
    ensures s != [] && s[0] == '"' && s[|s| - 1] == '"' ==> |r| == if |s| >= 2 then |s| - 2 else 0
    ensures !(s != [] && s[0] == '"' && s[|s| - 1] == '"') ==> r == s
  {
    if s != [] && s[0] == '"' && s[|s| - 1] == '"' then
      (if |s| >= 2 then s[1..|s| - 1] else "")
    else s
  }

  /** remove_quotes undoes the quoting assign_string applies. */
  lemma RemoveQuotesInvertsQuote(v: string)
    ensures RemoveQuotes(Quote(v)) == v
  {
    var q := Quote(v);
    assert q[1..|q| - 1] == v;
  }

  // ---------------------------------------------------------------------
  // Splitting and joining
  // ---------------------------------------------------------------------

  /** The pieces `while (getline(ss, piece, ','))` reads from `s`: the text
      between commas, where an empty text after a final comma (or an empty
      input) yields no piece, because getline then extracts nothing and fails. */
  function GetlineSplit(s: string): (r: seq<string>)
    ensures forall i :: 0 <= i < |r| ==> ',' !in r[i]
    ensures s == [] <==> r == []
    decreases |s|
  {
    if s == [] then []
    else
      IndexOfSpec(s, ',');
      match IndexOf(s, ',')
      case None => [s]
      case Some(i) => [s[..i]] + GetlineSplit(s[i + 1..])
  }

  lemma GetlineSplitCons(a: string, b: string)
    requires ',' !in a
    ensures GetlineSplit(a + [','] + b) == [a] + GetlineSplit(b)
  {
    var s := a + [','] + b;
    assert s[..|a|] == a;
    assert s[|a| + 1..] == b;
    assert s[|a|] == ',';
    IndexOfAt(s, ',', |a|);
  }

  lemma GetlineSplitLast(a: string)
    requires a != [] && ',' !in a
    ensures GetlineSplit(a) == [a]
  {
    IndexOfSpec(a, ',');
  }

  /** The ", " separator every serialiser puts between entries. */
  function Join(parts: seq<string>): string
  {
    if parts == [] then ""
    else if |parts| == 1 then parts[0]
    else parts[0] + ", " + Join(parts[1..])
  }

  // ---------------------------------------------------------------------
  // The key order of std::map<std::string, ...>
  // ---------------------------------------------------------------------

  /** Lexicographic order of std::string: character codes compared as
      unsigned, a proper prefix first. For UTF-8 this is code-point order. */
  predicate StrLeq(a: string, b: string)
  {
    if a == [] then true
    else if b == [] then false
    else if a[0] != b[0] then a[0] < b[0]
    else StrLeq(a[1..], b[1..])
  }

  lemma {:induction false} StrLeqTotal(a: string, b: string)
    ensures StrLeq(a, b) || StrLeq(b, a)
  {
    if a != [] && b != [] && a[0] == b[0] {
      StrLeqTotal(a[1..], b[1..]);
    }
  }

  lemma {:induction false} StrLeqAntisymmetric(a: string, b: string)
    requires StrLeq(a, b) && StrLeq(b, a)
    ensures a == b
  {
    if a != [] && b != [] {
      StrLeqAntisymmetric(a[1..], b[1..]);
      assert a == [a[0]] + a[1..];
      assert b == [b[0]] + b[1..];
    }
  }

  lemma {:induction false} StrLeqTransitive(a: string, b: string, c: string)
    requires StrLeq(a, b) && StrLeq(b, c)
    ensures StrLeq(a, c)
  {
    if a != [] && b != [] && c != [] && a[0] == b[0] && b[0] == c[0] {
      StrLeqTransitive(a[1..], b[1..], c[1..]);
    }
  }

  predicate IsLeast(k: string, keys: set<string>)
  {
    k in keys && forall k' :: k' in keys ==> StrLeq(k, k')
  }

  lemma LeastExists(keys: set<string>)
    requires keys != {}
    ensures exists k :: IsLeast(k, keys)
    decreases |keys|
  {
    var x :| x in keys;
    var rest := keys - {x};
    if rest == {} {
      assert keys == {x};
      StrLeqTotal(x, x);
      assert IsLeast(x, keys);
    } else {
      LeastExists(rest);
      var m :| IsLeast(m, rest);
      StrLeqTotal(x, m);
      if StrLeq(x, m) {
        forall k' | k' in keys ensures StrLeq(x, k') {
          if k' != x {
            StrLeqTransitive(x, m, k');
          } else {
            StrLeqTotal(x, x);
          }
        }
        assert IsLeast(x, keys);
      } else {
        assert IsLeast(m, keys);
      }
    }
  }

  lemma LeastUnique(a: string, b: string, keys: set<string>)
    requires IsLeast(a, keys) && IsLeast(b, keys)
    ensures a == b
  {
    StrLeqAntisymmetric(a, b);
  }

  /** Each key strictly before the next. */
  predicate SortedStrict(ks: seq<string>)
  {
    forall i :: 0 <= i < |ks| - 1 ==> StrLeq(ks[i], ks[i + 1]) && ks[i] != ks[i + 1]
  }

  lemma LeastIsUnique(keys: set<string>)
    ensures forall a, b :: IsLeast(a, keys) && IsLeast(b, keys) ==> a == b
  {
    forall a, b | IsLeast(a, keys) && IsLeast(b, keys) ensures a == b {
      LeastUnique(a, b, keys);
    }
  }

  lemma SortedCons(k: string, rest: seq<string>)
    requires SortedStrict(rest)
    requires rest != [] ==> StrLeq(k, rest[0]) && k != rest[0]
    ensures SortedStrict([k] + rest)
  {
    var r := [k] + rest;
    assert forall j :: 1 <= j < |r| ==> r[j] == rest[j - 1];
  }

  /** The keys of a std::map, in the order its iterators visit them. */
  function SortedKeys(keys: set<string>): (r: seq<string>)
    ensures |r| == |keys|
    ensures forall k :: k in r <==> k in keys
    ensures SortedStrict(r)
    decreases |keys|
  {
    if keys == {} then []
    else
      LeastExists(keys);
      LeastIsUnique(keys);
      var k :| IsLeast(k, keys);
      var rest := SortedKeys(keys - {k});
      assert rest != [] ==> rest[0] in keys - {k};
      SortedCons(k, rest);
      [k] + rest
  }

  // ---------------------------------------------------------------------
  // Serialisers
  // ---------------------------------------------------------------------

  /** One `"key": value` entry; the value text is written verbatim. */
  function Entry(k: string, v: string): string
  {
    Quote(k) + ": " + v
  }

  function EntriesOf(obj: JsonObject, ks: seq<string>): (r: seq<string>)
    requires forall k :: k in ks ==> k in obj
    ensures |r| == |ks| && forall i :: 0 <= i < |ks| ==> r[i] == Entry(ks[i], obj[ks[i]])
  {
    if ks == [] then [] else [Entry(ks[0], obj[ks[0]])] + EntriesOf(obj, ks[1..])
  }

  /** SimpleJSON::serialize_object. */
  function SerializeObject(obj: JsonObject): (r: string)
    ensures obj == map[] ==> r == "{}"
    ensures |r| >= 2 && r[0] == '{' && r[|r| - 1] == '}'
  {
    "{" + Join(EntriesOf(obj, SortedKeys(obj.Keys))) + "}"
  }

  function QuotedItems(arr: seq<string>): (r: seq<string>)
    ensures |r| == |arr| && forall i :: 0 <= i < |arr| ==> r[i] == Quote(arr[i])
  {
    if arr == [] then [] else [Quote(arr[0])] + QuotedItems(arr[1..])
  }

  /** SimpleJSON::serialize_array: every element quoted, in order. */
  function SerializeArray(arr: seq<string>): (r: string)
    ensures arr == [] ==> r == "[]"
    ensures |r| >= 2 && r[0] == '[' && r[|r| - 1] == ']'
  {
    "[" + Join(QuotedItems(arr)) + "]"
  }

  /** SimpleJSON::serialize_card: the text {"suit": "<suit>", "value": "<value>"},
      suit first, then value. */
  function SerializeCard(c: Card): string
  {
    "{" + Entry("suit", Quote(c.suit)) + ", " + Entry("value", Quote(c.value)) + "}"
  }

  function CardTexts(hand: seq<Card>): (r: seq<string>)
    ensures |r| == |hand| && forall i :: 0 <= i < |hand| ==> r[i] == SerializeCard(hand[i])
  {
    if hand == [] then [] else [SerializeCard(hand[0])] + CardTexts(hand[1..])
  }

  /** SimpleJSON::serialize_cards: the cards of a hand in hand order. */
  function SerializeCards(hand: seq<Card>): string
  {
    "[" + Join(CardTexts(hand)) + "]"
  }

  /** A map whose values are all written as quoted strings. */
  function QuoteAll(vals: map<string, string>): (r: JsonObject)
    ensures r.Keys == vals.Keys && forall k :: k in vals ==> r[k] == Quote(vals[k])
  {
    map k | k in vals :: Quote(vals[k])
  }

  function ObjectTexts(xs: seq<map<string, string>>): (r: seq<string>)
    ensures |r| == |xs| && forall i :: 0 <= i < |xs| ==> r[i] == SerializeObject(QuoteAll(xs[i]))
  {
    if xs == [] then [] else [SerializeObject(QuoteAll(xs[0]))] + ObjectTexts(xs[1..])
  }

  /** SimpleJSON::serialize_array_of_objects: each object's values are
      written as quoted strings. */
  function SerializeArrayOfObjects(xs: seq<map<string, string>>): string
  {
    "[" + Join(ObjectTexts(xs)) + "]"
  }

  /** The entries of serialize_nested_object: for each key, in the order
      given, the key and its array of objects. */
  function NestedEntries(n: NestedObject, ks: seq<string>): (r: seq<string>)
    requires forall k :: k in ks ==> k in n
    ensures |r| == |ks| && forall i :: 0 <= i < |ks| ==> r[i] == Entry(ks[i], SerializeArrayOfObjects(n[ks[i]]))
  {
    if ks == [] then [] else [Entry(ks[0], SerializeArrayOfObjects(n[ks[0]]))] + NestedEntries(n, ks[1..])
  }

  /** SimpleJSON::serialize_nested_object. */
  function SerializeNestedObject(n: NestedObject): string
  {
    "{" + Join(NestedEntries(n, SortedKeys(n.Keys))) + "}"
  }

  /** SimpleJSON::convert_hand_to_nested: one {suit, value} map per card. */
  function ConvertHandToNested(hand: seq<Card>): (r: seq<map<string, string>>)
    ensures |r| == |hand|
    ensures forall i :: 0 <= i < |hand| ==> r[i] == map["suit" := hand[i].suit, "value" := hand[i].value]
  {
    if hand == [] then [] else [map["suit" := hand[0].suit, "value" := hand[0].value]] + ConvertHandToNested(hand[1..])
  }

  lemma TwoKeysSorted(a: string, b: string)
    requires StrLeq(a, b) && a != b
    ensures SortedKeys({a, b}) == [a, b]
  {
    var r := SortedKeys({a, b});
    assert r[0] in {a, b} && r[1] in {a, b};
    if r[0] == b {
      StrLeqAntisymmetric(a, b);
    }
  }

  lemma SerializeTwo(a: string, b: string, x: string, y: string)
    requires StrLeq(a, b) && a != b
    ensures SerializeObject(map[a := x, b := y]) == "{" + Entry(a, x) + ", " + Entry(b, y) + "}"
  {
    var q := map[a := x, b := y];
    assert q.Keys == {a, b};
    TwoKeysSorted(a, b);
    var es := EntriesOf(q, [a, b]);
    assert es == [Entry(a, x), Entry(b, y)];
    assert Join(es) == es[0] + ", " + es[1] by {
      assert Join(es[1..]) == es[1];
    }
  }

  lemma QuoteAllCard(a: string, b: string)
    ensures QuoteAll(map["suit" := a, "value" := b]) == map["suit" := Quote(a), "value" := Quote(b)]
  {
  }

  lemma SerializeSuitValue(x: string, y: string)
    ensures SerializeObject(map["suit" := x, "value" := y]) == "{" + Entry("suit", x) + ", " + Entry("value", y) + "}"
  {
    assert StrLeq("suit", "value");
    SerializeTwo("suit", "value", x, y);
  }

  /** serialize_card writes exactly what serialize_object writes for the
      object {"suit": "<suit>", "value": "<value>"}. */
  lemma SerializeCardIsObject(c: Card)
    ensures SerializeCard(c) == SerializeObject(QuoteAll(map["suit" := c.suit, "value" := c.value]))
  {
    QuoteAllCard(c.suit, c.value);
    SerializeSuitValue(Quote(c.suit), Quote(c.value));
  }

  /** A hand converted with convert_hand_to_nested and written with
      serialize_array_of_objects is the same text as serialize_cards. */
  lemma {:induction false} NestedHandIsCards(hand: seq<Card>)
    ensures SerializeArrayOfObjects(ConvertHandToNested(hand)) == SerializeCards(hand)
  {
    var xs := ConvertHandToNested(hand);
    assert ObjectTexts(xs) == CardTexts(hand) by {
      forall i | 0 <= i < |hand| ensures ObjectTexts(xs)[i] == CardTexts(hand)[i] {
        SerializeCardIsObject(hand[i]);
      }
    }
  }

  // ---------------------------------------------------------------------
  // Numbers and booleans
  // ---------------------------------------------------------------------

  function DigitChar(d: nat): char
    requires d < 10
  {
    ('0' as int + d) as char
  }

  function NatToString(n: nat): (r: string)
    ensures r != []
    decreases n
  {
    if n < 10 then [DigitChar(n)] else NatToString(n / 10) + [DigitChar(n % 10)]
  }

  /** std::to_string on an int: optional minus sign, then decimal digits. */
  function IntToString(n: int): string
  {
    if n < 0 then "-" + NatToString(-n) else NatToString(n)
  }

  /** The number a string of decimal digits denotes (a reference reading of
      the text assign_int writes). */
  function DigitsValue(s: string): int
  {
    if s == [] then 0
    else DigitsValue(s[..|s| - 1]) * 10 + (s[|s| - 1] as int - '0' as int)
  }

  function DecimalValue(s: string): int
  {
    if s != [] && s[0] == '-' then -DigitsValue(s[1..]) else DigitsValue(s)
  }

  lemma {:induction false} NatToStringValue(n: nat)
    ensures DigitsValue(NatToString(n)) == n
    ensures NatToString(n)[0] != '-'
    decreases n
  {
    var s := NatToString(n);
    if n >= 10 {
      NatToStringValue(n / 10);
      assert s[..|s| - 1] == NatToString(n / 10);
      assert DigitChar(n % 10) as int - '0' as int == n % 10;
    } else {
      assert DigitChar(n) as int - '0' as int == n;
    }
  }

  lemma SignedDigits(n: int)
    requires n < 0
    ensures DecimalValue(IntToString(n)) == -DigitsValue(NatToString(-n))
  {
    var d := NatToString(-n);
    assert IntToString(n)[1..] == d;
  }

  lemma NegativeIntToStringValue(n: int)
    requires n < 0
    ensures DecimalValue(IntToString(n)) == n
  {
    NatToStringValue(-n);
    SignedDigits(n);
  }

  /** The text assign_int stores reads back as the same number. */
  lemma IntToStringValue(n: int)
    ensures DecimalValue(IntToString(n)) == n
  {
    if n < 0 {
      NegativeIntToStringValue(n);
    } else {
      NatToStringValue(n);
    }
  }

  function BoolText(b: bool): string
  {
    if b then "true" else "false"
  }

  // ---------------------------------------------------------------------
  // The values the assign_* members store (as updates of the data map)
  // ---------------------------------------------------------------------

  function WithString(data: JsonObject, key: string, value: string): JsonObject
  {
    data[key := Quote(value)]
  }

  function WithInt(data: JsonObject, key: string, value: int): JsonObject
  {
    data[key := IntToString(value)]
  }

  function WithBool(data: JsonObject, key: string, value: bool): JsonObject
  {
    data[key := BoolText(value)]
  }

  /** assign_string: the key now reads back (unquoted) as the value; every
      other key keeps its entry. */
  lemma WithStringReadsBack(data: JsonObject, key: string, value: string)
    ensures var r := WithString(data, key, value);
      && r.Keys == data.Keys + {key} && RemoveQuotes(r[key]) == value
      && forall k :: k in data && k != key ==> r[k] == data[k]
  {
    RemoveQuotesInvertsQuote(value);
  }

  /** assign_int: the key now holds decimal text denoting the value; every
      other key keeps its entry. */
  lemma WithIntReadsBack(data: JsonObject, key: string, value: int)
    ensures var r := WithInt(data, key, value);
      && r.Keys == data.Keys + {key} && DecimalValue(r[key]) == value
      && forall k :: k in data && k != key ==> r[k] == data[k]
  {
    IntToStringValue(value);
  }

  /** assign_bool: the key holds exactly "true" or "false", as the value says. */
  lemma WithBoolReadsBack(data: JsonObject, key: string, value: bool)
    ensures var r := WithBool(data, key, value);
      && r.Keys == data.Keys + {key}
      && (r[key] == "true" <==> value) && (r[key] == "false" <==> !value)
      && forall k :: k in data && k != key ==> r[k] == data[k]
  {
    if value {
      assert BoolText(value) != "false";
    } else {
      assert BoolText(value) != "true";
    }
  }

  function WithCard(data: JsonObject, key: string, c: Card): JsonObject
  {
    data[key := SerializeCard(c)]
  }

  function WithCards(data: JsonObject, key: string, hand: seq<Card>): JsonObject
  {
    data[key := SerializeCards(hand)]
  }

  function WithArray(data: JsonObject, key: string, arr: seq<string>): JsonObject
  {
    data[key := SerializeArray(arr)]
  }

  function WithNested(data: JsonObject, key: string, n: NestedObject): JsonObject
  {
    data[key := SerializeNestedObject(n)]
  }

  /** assign_multiple_hands: one entry per player name, holding that hand. */
  function WithHands(data: JsonObject, hands: map<string, seq<Card>>): (r: JsonObject)
    ensures r.Keys == data.Keys + hands.Keys
    ensures forall k :: k in hands ==> r[k] == SerializeCards(hands[k])
    ensures forall k :: k in data && k !in hands ==> r[k] == data[k]
  {
    data + HandTexts(hands)
  }

  function HandTexts(hands: map<string, seq<Card>>): (r: JsonObject)
    ensures r.Keys == hands.Keys
  {
    map k | k in hands :: SerializeCards(hands[k])
  }

  /** assign_multiple_hands' loop over the hand owners listed in `names`. */
  function WriteHands(data: JsonObject, hands: map<string, seq<Card>>, names: seq<string>): JsonObject
    requires forall k :: k in names ==> k in hands
    decreases |names|
  {
    if names == [] then data
    else WriteHands(data[names[0] := SerializeCards(hands[names[0]])], hands, names[1..])
  }

  lemma {:induction false} WriteHandsPicked(base: JsonObject, hands: map<string, seq<Card>>, pre: seq<string>, names: seq<string>)
    requires forall k :: k in names ==> k in hands
    ensures WriteHands(base + Picked(HandTexts(hands), pre), hands, names) == base + Picked(HandTexts(hands), pre + names)
    decreases |names|
  {
    if names == [] {
      assert pre + names == pre;
    } else {
      PickedSnoc(base, HandTexts(hands), pre, names[0]);
      WriteHandsPicked(base, hands, pre + [names[0]], names[1..]);
      assert pre + [names[0]] + names[1..] == pre + names;
    }
  }

  /** One iteration of assign_multiple_hands' loop. */
  lemma WriteHandsStep(written: JsonObject, base: JsonObject, hands: map<string, seq<Card>>, names: seq<string>, i: nat)
    requires i < |names| && forall k :: k in names ==> k in hands
    requires WriteHands(written, hands, names[i..]) == WriteHands(base, hands, names)
    ensures WriteHands(written[names[i] := SerializeCards(hands[names[i]])], hands, names[i + 1..])
         == WriteHands(base, hands, names)
  {
    assert names[i..][1..] == names[i + 1..];
  }

  /** After the last iteration of assign_multiple_hands' loop. */
  lemma WriteHandsEnd(written: JsonObject, base: JsonObject, hands: map<string, seq<Card>>, names: seq<string>)
    requires names == SortedKeys(hands.Keys)
    requires WriteHands(written, hands, names[|names|..]) == WriteHands(base, hands, names)
    ensures written == WithHands(base, hands)
  {
    assert names[|names|..] == [];
    WriteAllHands(base, hands);
  }

  /** Writing every hand, in key order, gives the object WithHands describes. */
  lemma WriteAllHands(base: JsonObject, hands: map<string, seq<Card>>)
    ensures WriteHands(base, hands, SortedKeys(hands.Keys)) == WithHands(base, hands)
  {
    var names := SortedKeys(hands.Keys);
    PickedNone(base, HandTexts(hands));
    WriteHandsPicked(base, hands, [], names);
    assert [] + names == names;
    PickedAll(HandTexts(hands), names);
  }

  /** The const operator[]: an absent key throws std::out_of_range. */
  function Lookup(data: JsonObject, key: string): (r: Result<string, JsonError>)
    ensures r.Ok? <==> key in data
    ensures r.Ok? ==> r.value == data[key]
  {
    if key in data then Ok(data[key]) else Err(OutOfRange("Key not found in SimpleJSON object: " + key))
  }

  // ---------------------------------------------------------------------
  // Deserialisers
  // ---------------------------------------------------------------------

  /** What one comma-separated piece contributes to the object. */
  datatype PairStep = Pair(key: string, value: string) | Skip | Thrown(error: JsonError)

  /** The body of deserialize_object's getline loop for one piece: trim it,
      skip it if it has no colon, else trim and unquote both sides of the
      first colon. `trim` throws on a piece, key or value made of blanks only. */
  function ParsePair(piece: string): PairStep
  {
    match Trim(piece)
    case Err(e) => Thrown(e)
    case Ok(t) =>
      match IndexOf(t, ':')
      case None => Skip
      case Some(colon) => PairOf(Trim(t[..colon]), Trim(t[colon + 1..]))
  }

  /** The pair read from the trimmed key and value; the key is trimmed first,
      so its exception is the one that escapes. */
  function PairOf(key: Result<string, JsonError>, value: Result<string, JsonError>): PairStep
  {
    if key.Err? then Thrown(key.error)
    else if value.Err? then Thrown(value.error)
    else Pair(RemoveQuotes(key.value), RemoveQuotes(value.value))
  }

  /** The state deserialize_object leaves: the data map, and the exception
      if one escaped (the pairs stored before it stay). */
  datatype Parsed = Parsed(data: JsonObject, failure: Option<JsonError>)

  function ParsePairs(pieces: seq<string>, acc: JsonObject): Parsed
  {
    if pieces == [] then Parsed(acc, None)
    else match ParsePair(pieces[0])
      case Thrown(e) => Parsed(acc, Some(e))
      case Skip => ParsePairs(pieces[1..], acc)
      case Pair(k, v) => ParsePairs(pieces[1..], acc[k := v])
  }

  /** The text between the braces: str.find("{") + 1 wraps npos round to 0
      when there is no '{'; when the last '}' lies before that point,
      end - start wraps to a huge count and substr takes the rest. */
  function BraceContent(s: string, open: char, close: nat): string
    requires close < |s|
  {
    var start: nat := match IndexOf(s, open) { case None => 0 case Some(i) => i + 1 };
    if close >= start then s[start..close] else s[start..]
  }

  /** SimpleJSON::deserialize_object. */
  function DeserializeObject(s: string): (r: Parsed)
    ensures '}' !in s ==> r == Parsed(map[], Some(InvalidArgument("Invalid JSON object")))
  {
    LastIndexOfSpec(s, '}');
    match LastIndexOf(s, '}')
    case None => Parsed(map[], Some(InvalidArgument("Invalid JSON object")))
    case Some(close) => ParsePairs(GetlineSplit(BraceContent(s, '{', close)), map[])
  }

  /** One element of deserialize_array: the text between the first and the
      last double quote. With no quote it is the whole piece (substr(0, npos));
      with a single quote, end - start wraps and the rest after it is taken. */
  function ArrayElement(e: string): string
  {
    match (IndexOf(e, '"'), LastIndexOf(e, '"'))
    case (Some(f), Some(l)) => if l >= f + 1 then e[f + 1..l] else e[f + 1..]
    case _ => e
  }

  function ArrayElements(pieces: seq<string>): (r: seq<string>)
    ensures |r| == |pieces| && forall i :: 0 <= i < |pieces| ==> r[i] == ArrayElement(pieces[i])
  {
    if pieces == [] then [] else [ArrayElement(pieces[0])] + ArrayElements(pieces[1..])
  }

  /** SimpleJSON::deserialize_array. */
  function DeserializeArray(s: string): (r: Result<seq<string>, JsonError>)
    ensures ']' !in s ==> r == Err(InvalidArgument("Invalid JSON array"))
  {
    LastIndexOfSpec(s, ']');
    match LastIndexOf(s, ']')
    case None => Err(InvalidArgument("Invalid JSON array"))
    case Some(close) => Ok(ArrayElements(GetlineSplit(BraceContent(s, '[', close))))
  }

  // ---------------------------------------------------------------------
  // Round trips
  // ---------------------------------------------------------------------

  /** Keys the deserialiser reads back unchanged: no comma, no colon. */
  predicate CleanKey(k: string)
  {
    ',' !in k && ':' !in k
  }

  /** Keys and values that survive a round trip through the text. */
  predicate RoundTrips(vals: map<string, string>)
  {
    forall k :: k in vals ==> CleanKey(k) && ',' !in vals[k]
  }

  /** The first colon of an entry follows the quoted key. */
  lemma EntryColon(k: string, w: string)
    requires ':' !in k
    ensures IndexOf(Entry(k, w), ':') == Some(|k| + 2)
    ensures Entry(k, w)[..|k| + 2] == Quote(k)
    ensures Entry(k, w)[|k| + 3..] == " " + w
  {
    var e := Entry(k, w);
    assert e == Quote(k) + [':'] + (" " + w);
    assert e[..|k| + 2] == Quote(k);
    assert ':' !in Quote(k) by {
      assert Quote(k) == ['"'] + k + ['"'];
    }
    IndexOfAt(e, ':', |k| + 2);
  }

  /** ParsePair in terms of its intermediate results. */
  lemma ParsePairOf(piece: string, t: string, colon: nat, key: string, value: string)
    requires Trim(piece) == Ok(t) && IndexOf(t, ':') == Some(colon)
    requires Trim(t[..colon]) == Ok(key) && Trim(t[colon + 1..]) == Ok(value)
    ensures ParsePair(piece) == Pair(RemoveQuotes(key), RemoveQuotes(value))
  {
  }

  /** What deserialize_object does with one piece: it is skipped exactly
      when it trims to a text with no colon; trim throws exactly when the
      piece, or either side of its first colon, is blank-only; otherwise the
      trimmed, unquoted sides of the first colon are stored. */
  lemma ParsePairSpec(piece: string)
    ensures ParsePair(piece) == Skip <==> Trim(piece).Ok? && ':' !in Trim(piece).value
    ensures ParsePair(piece).Thrown? <==>
      AllBlank(piece) ||
      (Trim(piece).Ok? && IndexOf(Trim(piece).value, ':').Some? &&
       var t := Trim(piece).value;
       var colon := IndexOf(t, ':').value;
       AllBlank(t[..colon]) || AllBlank(t[colon + 1..]))
    ensures ParsePair(piece).Pair? ==>
      && Trim(piece).Ok? && IndexOf(Trim(piece).value, ':').Some?
      && var t := Trim(piece).value;
         var colon := IndexOf(t, ':').value;
         && Trim(t[..colon]).Ok? && Trim(t[colon + 1..]).Ok?
         && ParsePair(piece) == Pair(RemoveQuotes(Trim(t[..colon]).value), RemoveQuotes(Trim(t[colon + 1..]).value))
  {
    TrimSpec(piece);
    if Trim(piece).Ok? {
      var t := Trim(piece).value;
      IndexOfSpec(t, ':');
      if IndexOf(t, ':').Some? {
        var colon := IndexOf(t, ':').value;
        TrimSpec(t[..colon]);
        TrimSpec(t[colon + 1..]);
      }
    }
  }

  lemma EntrySides(k: string, v: string)
    requires CleanKey(k)
    ensures var e := Entry(k, Quote(v));
      && IndexOf(e, ':') == Some(|k| + 2)
      && Trim(e[..|k| + 2]) == Ok(Quote(k))
      && Trim(e[|k| + 3..]) == Ok(Quote(v))
  {
    EntryColon(k, Quote(v));
    TrimPadded("", Quote(k));
    assert "" + Quote(k) == Quote(k);
    TrimPadded(" ", Quote(v));
  }

  lemma ParseEntry(piece: string, pre: string, k: string, v: string)
    requires piece == pre + Entry(k, Quote(v))
    requires AllBlank(pre) && CleanKey(k)
    ensures ParsePair(piece) == Pair(k, v)
  {
    var e := Entry(k, Quote(v));
    assert e[0] == '"' && e[|e| - 1] == '"';
    TrimPadded(pre, e);
    EntrySides(k, v);
    ParsePairOf(piece, e, |k| + 2, Quote(k), Quote(v));
    RemoveQuotesInvertsQuote(k);
    RemoveQuotesInvertsQuote(v);
  }

  lemma CommaFreeEntry(k: string, v: string)
    requires ',' !in k && ',' !in v
    ensures ',' !in Entry(k, Quote(v))
  {
    assert Entry(k, Quote(v)) == ['"'] + k + ['"', ':', ' ', '"'] + v + ['"'];
  }

  /** Each part after the first, with the blank that follows its comma. */
  function Spaced(parts: seq<string>): (r: seq<string>)
    ensures |r| == |parts| && forall i :: 0 <= i < |parts| ==> r[i] == " " + parts[i]
  {
    if parts == [] then [] else [" " + parts[0]] + Spaced(parts[1..])
  }

  /** getline splits a ", "-joined list of comma-free, non-empty parts back
      into its parts, each after the blank that followed its comma. */
  lemma {:induction false} SplitJoined(pre: string, parts: seq<string>)
    requires ',' !in pre && parts != []
    requires forall i :: 0 <= i < |parts| ==> parts[i] != [] && ',' !in parts[i]
    ensures GetlineSplit(pre + Join(parts)) == [pre + parts[0]] + Spaced(parts[1..])
    decreases |parts|
  {
    assert ',' !in pre + parts[0];
    if |parts| == 1 {
      GetlineSplitLast(pre + parts[0]);
    } else {
      var rest := Join(parts[1..]);
      assert pre + Join(parts) == (pre + parts[0]) + [','] + (" " + rest);
      GetlineSplitCons(pre + parts[0], " " + rest);
      SplitJoined(" ", parts[1..]);
      assert Spaced(parts[1..]) == [" " + parts[1..][0]] + Spaced(parts[1..][1..]);
    }
  }

  /** The entries of `vals` at the keys listed in `ks`. */
  function Picked(vals: map<string, string>, ks: seq<string>): map<string, string>
  {
    map k | k in ks && k in vals :: vals[k]
  }

  lemma EmptyUnion(m: map<string, string>)
    ensures map[] + m == m
  {
  }

  lemma PickedAll(vals: map<string, string>, ks: seq<string>)
    requires forall k :: k in vals <==> k in ks
    ensures Picked(vals, ks) == vals
  {
  }

  lemma PickedNone(base: JsonObject, vals: map<string, string>)
    ensures base + Picked(vals, []) == base
  {
  }

  lemma PickedSnoc(base: JsonObject, vals: map<string, string>, ks: seq<string>, k: string)
    requires k in vals
    ensures base + Picked(vals, ks + [k]) == (base + Picked(vals, ks))[k := vals[k]]
  {
  }

  lemma PairsStep(acc: JsonObject, ks: seq<string>, vals: map<string, string>)
    requires ks != [] && forall k :: k in ks ==> k in vals
    ensures acc[ks[0] := vals[ks[0]]] + Picked(vals, ks[1..]) == acc + Picked(vals, ks)
  {
  }

  lemma SplitJoinedPlain(parts: seq<string>)
    requires parts != []
    requires forall i :: 0 <= i < |parts| ==> parts[i] != [] && ',' !in parts[i]
    ensures GetlineSplit(Join(parts)) == [parts[0]] + Spaced(parts[1..])
  {
    SplitJoined("", parts);
    assert "" + Join(parts) == Join(parts);
    assert "" + parts[0] == parts[0];
  }

  lemma EntriesClean(vals: map<string, string>, ks: seq<string>)
    requires RoundTrips(vals)
    requires forall k :: k in ks ==> k in vals
    ensures var es := EntriesOf(QuoteAll(vals), ks);
      forall i :: 0 <= i < |es| ==> es[i] != [] && ',' !in es[i]
  {
    var es := EntriesOf(QuoteAll(vals), ks);
    forall i | 0 <= i < |es| ensures es[i] != [] && ',' !in es[i] {
      CommaFreeEntry(ks[i], vals[ks[i]]);
    }
  }

  /** The pieces of a ", "-joined list of entries, the first after `pre`,
      the later ones after the blank that follows each comma, store the
      entries' pairs in order. */
  lemma {:induction false} ParseSpacedEntries(vals: map<string, string>, ks: seq<string>, pre: string, acc: JsonObject)
    requires RoundTrips(vals) && ks != [] && AllBlank(pre)
    requires forall k :: k in ks ==> k in vals
    ensures ParsePairs([pre + Entry(ks[0], Quote(vals[ks[0]]))] + Spaced(EntriesOf(QuoteAll(vals), ks[1..])), acc)
         == Parsed(acc + Picked(vals, ks), None)
    decreases |ks|
  {
    var first := pre + Entry(ks[0], Quote(vals[ks[0]]));
    var rest := Spaced(EntriesOf(QuoteAll(vals), ks[1..]));
    var next := acc[ks[0] := vals[ks[0]]];
    ParseEntry(first, pre, ks[0], vals[ks[0]]);
    assert ([first] + rest)[0] == first && ([first] + rest)[1..] == rest;
    assert ParsePairs([first] + rest, acc) == ParsePairs(rest, next);
    PairsStep(acc, ks, vals);
    if |ks| == 1 {
      assert rest == [];
      PickedNone(next, vals);
    } else {
      var later := ks[1..];
      assert EntriesOf(QuoteAll(vals), later)
          == [Entry(later[0], Quote(vals[later[0]]))] + EntriesOf(QuoteAll(vals), later[1..]);
      assert rest == [" " + Entry(later[0], Quote(vals[later[0]]))] + Spaced(EntriesOf(QuoteAll(vals), later[1..]));
      ParseSpacedEntries(vals, later, " ", next);
    }
  }

  lemma EntriesParse(vals: map<string, string>, ks: seq<string>)
    requires RoundTrips(vals) && ks != []
    requires forall k :: k in ks ==> k in vals
    ensures ParsePairs(GetlineSplit(Join(EntriesOf(QuoteAll(vals), ks))), map[]) == Parsed(Picked(vals, ks), None)
  {
    var es := EntriesOf(QuoteAll(vals), ks);
    EntriesClean(vals, ks);
    SplitJoinedPlain(es);
    assert es[0] == "" + Entry(ks[0], Quote(vals[ks[0]]));
    assert es[1..] == EntriesOf(QuoteAll(vals), ks[1..]);
    ParseSpacedEntries(vals, ks, "", map[]);
    EmptyUnion(Picked(vals, ks));
  }

  /** The text between an opening and a closing delimiter at both ends. */
  lemma Delimited(open: char, body: string, close: char)
    ensures LastIndexOf([open] + body + [close], close) == Some(|body| + 1)
    ensures BraceContent([open] + body + [close], open, |body| + 1) == body
  {
    var s := [open] + body + [close];
    assert IndexOf(s, open) == Some(0);
    assert s[1..|body| + 1] == body;
  }

  /** Round trip: an object built only with assign_string, with no comma in
      any key or value and no colon in any key, reads back from its
      serialised text as exactly the unquoted values, without an exception. */
  lemma ObjectRoundTrip(vals: map<string, string>)
    requires RoundTrips(vals)
    ensures DeserializeObject(SerializeObject(QuoteAll(vals))) == Parsed(vals, None)
  {
    var q := QuoteAll(vals);
    var ks := SortedKeys(q.Keys);
    var body := Join(EntriesOf(q, ks));
    assert SerializeObject(q) == ['{'] + body + ['}'];
    Delimited('{', body, '}');
    if ks == [] {
      assert vals == map[];
    } else {
      EntriesParse(vals, ks);
      PickedAll(vals, ks);
    }
  }

  /** serialize_card's text reads back as its suit and value. */
  lemma CardRoundTrip(c: Card)
    requires ',' !in c.suit && ',' !in c.value
    ensures DeserializeObject(SerializeCard(c)) == Parsed(map["suit" := c.suit, "value" := c.value], None)
  {
    var m := map["suit" := c.suit, "value" := c.value];
    assert RoundTrips(m);
    ObjectRoundTrip(m);
    SerializeCardIsObject(c);
  }

  /** The element deserialize_array takes from a quoted item: the text
      between its first and its last double quote. */
  lemma ArrayElementOfQuoted(e: string, pre: string, x: string)
    requires e == pre + Quote(x) && '"' !in pre
    ensures ArrayElement(e) == x
  {
    assert e == pre + ['"'] + x + ['"'];
    assert e[..|pre|] == pre;
    IndexOfAt(e, '"', |pre|);
    assert LastIndexOf(e, '"') == Some(|e| - 1);
    assert e[|pre| + 1..|e| - 1] == x;
  }

  lemma QuotedItemsClean(arr: seq<string>)
    requires forall i :: 0 <= i < |arr| ==> ',' !in arr[i]
    ensures var qs := QuotedItems(arr); forall i :: 0 <= i < |qs| ==> qs[i] != [] && ',' !in qs[i]
  {
    var qs := QuotedItems(arr);
    forall i | 0 <= i < |qs| ensures qs[i] != [] && ',' !in qs[i] {
      assert qs[i] == ['"'] + arr[i] + ['"'];
    }
  }

  lemma LaterQuotedPieceRead(arr: seq<string>, pieces: seq<string>, i: nat)
    requires 0 < i < |arr|
    requires pieces == [QuotedItems(arr)[0]] + Spaced(QuotedItems(arr)[1..])
    ensures ArrayElement(pieces[i]) == arr[i]
  {
    QuotedPieceShape(arr, pieces, i);
    ArrayElementOfQuoted(pieces[i], " ", arr[i]);
  }

  lemma QuotedPieceShape(arr: seq<string>, pieces: seq<string>, i: nat)
    requires 0 < i < |arr|
    requires pieces == [QuotedItems(arr)[0]] + Spaced(QuotedItems(arr)[1..])
    ensures pieces[i] == " " + Quote(arr[i])
  {
    var qs := QuotedItems(arr);
    assert pieces[i] == Spaced(qs[1..])[i - 1];
    assert qs[1..][i - 1] == qs[i];
  }

  lemma QuotedPiecesRead(arr: seq<string>, pieces: seq<string>)
    requires arr != []
    requires pieces == [QuotedItems(arr)[0]] + Spaced(QuotedItems(arr)[1..])
    ensures ArrayElements(pieces) == arr
  {
    assert pieces[0] == "" + Quote(arr[0]);
    ArrayElementOfQuoted(pieces[0], "", arr[0]);
    forall i | 0 < i < |arr| ensures ArrayElement(pieces[i]) == arr[i] {
      LaterQuotedPieceRead(arr, pieces, i);
    }
  }

  /** Round trip: deserialize_array reads back what serialize_array wrote as
      long as no element holds a comma (quotes and brackets inside elements
      are harmless, since the first and last ones are found). */
  lemma ArrayRoundTrip(arr: seq<string>)
    requires forall i :: 0 <= i < |arr| ==> ',' !in arr[i]
    ensures DeserializeArray(SerializeArray(arr)) == Ok(arr)
  {
    var qs := QuotedItems(arr);
    var body := Join(qs);
    assert SerializeArray(arr) == ['['] + body + [']'];
    Delimited('[', body, ']');
    if arr != [] {
      QuotedItemsClean(arr);
      SplitJoinedPlain(qs);
      QuotedPiecesRead(arr, GetlineSplit(body));
    }
  }

  /** A later pair with the same key overwrites an earlier one. */
  lemma {:induction false} LaterPairWins(pieces: seq<string>, piece: string, acc: JsonObject)
    requires ParsePairs(pieces, acc).failure.None?
    requires ParsePair(piece).Pair?
    ensures ParsePairs(pieces + [piece], acc)
         == Parsed(ParsePairs(pieces, acc).data[ParsePair(piece).key := ParsePair(piece).value], None)
  {
    if pieces == [] {
      assert [] + [piece] == [piece];
    } else {
      assert (pieces + [piece])[1..] == pieces[1..] + [piece];
      match ParsePair(pieces[0])
      case Skip => LaterPairWins(pieces[1..], piece, acc);
      case Pair(k, v) => LaterPairWins(pieces[1..], piece, acc[k := v]);
    }
  }

  /** The first exception ends the parse: the pairs before it are kept. */
  lemma {:induction false} ThrowKeepsEarlierPairs(pieces: seq<string>, piece: string, more: seq<string>, acc: JsonObject)
    requires ParsePairs(pieces, acc).failure.None?
    requires ParsePair(piece).Thrown?
    ensures ParsePairs(pieces + [piece] + more, acc)
         == Parsed(ParsePairs(pieces, acc).data, Some(ParsePair(piece).error))
  {
    if pieces == [] {
      assert [] + [piece] + more == [piece] + more;
    } else {
      assert (pieces + [piece] + more)[1..] == pieces[1..] + [piece] + more;
      match ParsePair(pieces[0])
      case Skip => ThrowKeepsEarlierPairs(pieces[1..], piece, more, acc);
      case Pair(k, v) => ThrowKeepsEarlierPairs(pieces[1..], piece, more, acc[k := v]);
    }
  }

  // ---------------------------------------------------------------------
  // The SimpleJSON object: a data map updated in place
  // ---------------------------------------------------------------------

  class SimpleJSON {
    var data: JsonObject

    constructor ()
      ensures data == map[]
    {
      data := map[];
    }

    method AssignString(key: string, value: string)
      modifies this
      ensures data == WithString(old(data), key, value)
    {
      data := data[key := Quote(value)];
    }

    method AssignInt(key: string, value: int)
      modifies this
      ensures data == WithInt(old(data), key, value)
    {
      data := data[key := IntToString(value)];
    }

    method AssignBool(key: string, value: bool)
      modifies this
      ensures data == WithBool(old(data), key, value)
    {
      data := data[key := if value then "true" else "false"];
    }

    method AssignCard(key: string, c: Card)
      modifies this
      ensures data == WithCard(old(data), key, c)
    {
      data := data[key := SerializeCard(c)];
    }

    method AssignCards(key: string, hand: seq<Card>)
      modifies this
      ensures data == WithCards(old(data), key, hand)
    {
      data := data[key := SerializeCards(hand)];
    }

    method AssignArray(key: string, arr: seq<string>)
      modifies this
      ensures data == WithArray(old(data), key, arr)
    {
      data := data[key := SerializeArray(arr)];
    }

    method AssignNestedObject(key: string, n: NestedObject)
      modifies this
      ensures data == WithNested(old(data), key, n)
    {
      data := data[key := SerializeNestedObject(n)];
    }

    /** assign_multiple_hands: a loop over the hands map in key order. */
    method AssignMultipleHands(hands: map<string, seq<Card>>)
      modifies this
      ensures data == WithHands(old(data), hands)
    {
      var names := SortedKeys(hands.Keys);
      var written := data;
      var i := 0;
      while i < |names|
        invariant 0 <= i <= |names|
        invariant WriteHands(written, hands, names[i..]) == WriteHands(old(data), hands, names)
      {
        WriteHandsStep(written, old(data), hands, names, i);
        written := written[names[i] := SerializeCards(hands[names[i]])];
        i := i + 1;
      }
      WriteHandsEnd(written, old(data), hands, names);
      data := written;
    }

    /** serialize(). */
    function Serialize(): string
      reads this
    {
      SerializeObject(data)
    }

    /** get_data(). */
    function GetData(): JsonObject
      reads this
    {
      data
    }

    /** The const operator[]. */
    function At(key: string): Result<string, JsonError>
      reads this
    {
      Lookup(data, key)
    }

    /** The non-const operator[]: an absent key is inserted with an empty value. */
    method Index(key: string) returns (value: string)
      modifies this
      ensures key in old(data) ==> data == old(data) && value == old(data)[key]
      ensures key !in old(data) ==> data == old(data)[key := ""] && value == ""
    {
      if key !in data {
        data := data[key := ""];
      }
      value := data[key];
    }

    /** deserialize_object (the member): clears the data, then runs the getline loop over
        the text between the braces. An exception ends the loop with the
        pairs stored so far. */
    method Deserialize(s: string) returns (failure: Option<JsonError>)
      modifies this
      ensures Parsed(data, failure) == DeserializeObject(s)
    {
      data := map[];
      var close := LastIndexOf(s, '}');
      if close.None? {
        return Some(InvalidArgument("Invalid JSON object"));
      }
      var pieces := GetlineSplit(BraceContent(s, '{', close.value));
      var i := 0;
      while i < |pieces|
        invariant 0 <= i <= |pieces|
        invariant ParsePairs(pieces[i..], data) == ParsePairs(pieces, map[])
      {
        assert pieces[i..][1..] == pieces[i + 1..];
        match ParsePair(pieces[i]) {
          case Thrown(e) =>
            return Some(e);
          case Skip =>
          case Pair(k, v) =>
            data := data[k := v];
        }
        i := i + 1;
      }
      failure := None;
    }
  }
}
