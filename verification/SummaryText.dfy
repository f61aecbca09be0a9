/** The ASCII JSON text of a value, and why its length is the encoded size. */
module SummaryText {
  import opened Records
  import opened Text
  import opened DiffDelivery
  import opened Summary
  import opened SummaryEncoding

  // ----- strings -------------------------------------------------------------------------------

  const HEXADECIMAL := "0123456789abcdef"

  /** A UTF-16 code unit as an escape. */
  function Escape(unit: nat): string
    requires unit < 0x10000
  {
    ['\\', 'u', HEXADECIMAL[unit / 0x1000], HEXADECIMAL[unit / 0x100 % 16], HEXADECIMAL[unit / 16 % 16],
     HEXADECIMAL[unit % 16]]
  }

  function Character(c: char): string {
    var n := c as int;
    if c == '\"' then "\\\"" else if c == '\\' then "\\\\"
    else if n == 8 then "\\b" else if n == 9 then "\\t" else if n == 10 then "\\n" else if n == 12 then "\\f"
    else if n == 13 then "\\r"
    else if 0x20 <= n <= 0x7e then [c]
    else if n < 0x10000 then Escape(n)
    else Escape(0xd800 + (n - 0x10000) / 0x400) + Escape(0xdc00 + (n - 0x10000) % 0x400)
  }

  function Characters(text: string): string {
    if text == "" then "" else Character(text[0]) + Characters(text[1..])
  }

  function Quoted(text: string): string { "\"" + Characters(text) + "\"" }

  lemma CharacterLength(c: char)
    ensures |Character(c)| == CharCost(c)
  {
  }

  /** The cost of a text is the length of its escaped characters. */
  lemma {:induction false} CostIsLength(text: string)
    ensures |Characters(text)| == Cost(text)
  {
    hide Character, CharCost;
    if text != "" {
      CharacterLength(text[0]);
      CostIsLength(text[1..]);
    }
  }

  // ----- values --------------------------------------------------------------------------------

  function Joined(parts: seq<string>): string {
    if parts == [] then "" else if |parts| == 1 then parts[0]
      else Joined(parts[..|parts| - 1]) + ", " + parts[|parts| - 1]
  }

  function Number(n: int): string { if n < 0 then "-" + Decimal(-n) else Decimal(n) }

  ghost predicate InOrder(keys: seq<Key>, fields: map<Key, Json>) {
    Unique(keys) && forall k :: k in keys <==> k in fields
  }

  function Entry(k: Key, value: string): string { Quoted(KeyName(k)) + ": " + value }

  function Entries(keys: seq<Key>, values: seq<string>): (r: seq<string>)
    requires |keys| == |values|
    ensures |r| == |keys| && forall i :: 0 <= i < |r| ==> r[i] == Entry(keys[i], values[i])
  {
    seq(|keys|, i requires 0 <= i < |keys| => Entry(keys[i], values[i]))
  }

  /** `text` is the value in JSON, its fields in any order. */
  ghost predicate Encodes(j: Json, text: string)
    decreases j, 1
  {
    match j
    case Null => text == "null"
    case Bool(flag) => text == if flag then "true" else "false"
    case Num(n) => text == Number(n)
    case Str(s) => text == Quoted(s)
    case Arr(_) => exists parts :: EncodeItems(j, parts) && text == "[" + Joined(parts) + "]"
    case Obj(fields) =>
      exists keys, values :: && InOrder(keys, fields) && EncodeFields(j, keys, values)
                             && text == "{" + Joined(Entries(keys, values)) + "}"
  }

  ghost predicate EncodeItems(j: Json, parts: seq<string>)
    requires j.Arr?
    decreases j, 0
  {
    |parts| == |j.items| && forall i :: 0 <= i < |parts| ==> Encodes(j.items[i], parts[i])
  }

  ghost predicate EncodeFields(j: Json, keys: seq<Key>, values: seq<string>)
    requires j.Obj?
    decreases j, 0
  {
    |values| == |keys| && forall i :: 0 <= i < |keys| ==> keys[i] in j.fields && Encodes(j.fields[keys[i]], values[i])
  }

  function Lengths(parts: seq<string>): nat -> nat {
    (i: nat) => if i < |parts| then |parts[i]| else 0
  }

  lemma {:induction false} JoinedLength(parts: seq<string>)
    ensures |Joined(parts)| == SumTo(|parts|, Lengths(parts)) + Separators(|parts|)
    decreases |parts|
  {
    if |parts| > 1 {
      var front := parts[..|parts| - 1];
      JoinedLength(front);
      SumsAgree(|front|, Lengths(front), Lengths(parts));
    } else if |parts| == 1 {
      assert SumTo(1, Lengths(parts)) == SumTo(0, Lengths(parts)) + |parts[0]|;
    }
  }

  lemma SumsAgree(n: nat, f: nat -> nat, g: nat -> nat)
    requires forall i :: 0 <= i < n ==> f(i) == g(i)
    ensures SumTo(n, f) == SumTo(n, g)
  {
    SumToMonotone(n, f, g);
    SumToMonotone(n, g, f);
  }

  ghost function KeysOf(keys: seq<Key>): set<Key> { set k | k in keys }

  ghost function Along(keys: seq<Key>, f: Key -> nat): nat -> nat {
    (i: nat) => if i < |keys| then f(keys[i]) else 0
  }

  /** A sum over the keys, taken in any order. */
  lemma {:induction false} SumInOrder(keys: seq<Key>, f: Key -> nat)
    requires Unique(keys)
    ensures SumOver(KeysOf(keys), f) == SumTo(|keys|, Along(keys, f))
    decreases |keys|
  {
    if keys == [] {
      assert KeysOf(keys) == {};
    } else {
      var last := |keys| - 1;
      var front := keys[..last];
      SumInOrder(front, f);
      LastKey(keys);
      SumOverPick(KeysOf(keys), f, keys[last]);
      SumsAgree(last, Along(front, f), Along(keys, f));
    }
  }

  lemma LastKey(keys: seq<Key>)
    requires keys != [] && Unique(keys)
    ensures var front := keys[..|keys| - 1];
            var last := keys[|keys| - 1];
            && last in KeysOf(keys) && KeysOf(keys) - {last} == KeysOf(front) && last !in KeysOf(front)
            && KeysOf(keys) == KeysOf(front) + {last}
  {
    var front, last := keys[..|keys| - 1], keys[|keys| - 1];
    assert keys == front + [last];
    assert forall k :: k in keys <==> k in front || k == last;
  }

  lemma {:induction false} CountKeys(keys: seq<Key>)
    requires Unique(keys)
    ensures |KeysOf(keys)| == |keys|
    decreases |keys|
  {
    if keys == [] {
      assert KeysOf(keys) == {};
    } else {
      CountKeys(keys[..|keys| - 1]);
      LastKey(keys);
      hide KeysOf;
    }
  }

  /** Whatever the order of its fields, the encoded text of a value has the measured length. */
  lemma {:induction false} EncodedLength(j: Json, text: string)
    requires Encodes(j, text)
    ensures |text| == EncodedSize(j)
    decreases j
  {
    match j
    case Null =>
    case Bool(flag) =>
    case Num(n) =>
    case Str(s) => CostIsLength(s);
    case Arr(items) =>
      var parts :| EncodeItems(j, parts) && text == "[" + Joined(parts) + "]";
      forall i | 0 <= i < |items| ensures |parts[i]| == EncodedSize(items[i]) { EncodedLength(items[i], parts[i]); }
      hide EncodedSize;
      JoinedLength(parts);
      SumsAgree(|items|, Lengths(parts), ItemSizes(j));
      ArraySize(j);
    case Obj(fields) =>
      var keys, values :| InOrder(keys, fields) && EncodeFields(j, keys, values)
        && text == "{" + Joined(Entries(keys, values)) + "}";
      forall i | 0 <= i < |keys| ensures keys[i] in fields && |values[i]| == EncodedSize(fields[keys[i]]) {
        EncodedLength(fields[keys[i]], values[i]);
      }
      ObjectLength(j, keys, values);
  }

  lemma ArraySize(j: Json)
    requires j.Arr?
    ensures EncodedSize(j) == 2 + SumTo(|j.items|, ItemSizes(j)) + Separators(|j.items|)
  {
  }

  lemma ObjectSize(j: Json)
    requires j.Obj?
    ensures EncodedSize(j) == 2 + SumOver(j.fields.Keys, FieldSizes(j)) + Separators(|j.fields|)
  {
  }

  lemma ObjectLength(j: Json, keys: seq<Key>, values: seq<string>)
    requires j.Obj? && InOrder(keys, j.fields) && |values| == |keys|
    requires forall i :: 0 <= i < |keys| ==> keys[i] in j.fields && |values[i]| == EncodedSize(j.fields[keys[i]])
    ensures |"{" + Joined(Entries(keys, values)) + "}"| == EncodedSize(j)
  {
    hide EncodedSize, KeyName, Cost, Characters;
    var parts := Entries(keys, values);
    JoinedLength(parts);
    forall i | 0 <= i < |keys| ensures |parts[i]| == FieldSizes(j)(keys[i]) { CostIsLength(KeyName(keys[i])); }
    SumsAgree(|keys|, Lengths(parts), Along(keys, FieldSizes(j)));
    SumInOrder(keys, FieldSizes(j));
    CountKeys(keys);
    assert KeysOf(keys) == j.fields.Keys && |j.fields| == |j.fields.Keys|;
    ObjectSize(j);
  }

  // ----- every value has an encoding ---------------------------------------------------------------

  lemma Ordering(fields: map<Key, Json>) returns (keys: seq<Key>)
    ensures InOrder(keys, fields)
  {
    keys := [];
    var rest := fields.Keys;
    while rest != {}
      invariant rest <= fields.Keys && Unique(keys) && forall k :: k in keys <==> k in fields && k !in rest
    {
      var k :| k in rest;
      keys, rest := keys + [k], rest - {k};
    }
  }

  lemma {:induction false} Encoding(j: Json) returns (text: string)
    ensures Encodes(j, text)
    decreases j
  {
    match j
    case Null => text := "null";
    case Bool(flag) => text := if flag then "true" else "false";
    case Num(n) => text := Number(n);
    case Str(s) => text := Quoted(s);
    case Arr(items) =>
      var parts, i := [], 0;
      while i < |items|
        invariant 0 <= i <= |items| && |parts| == i && forall k :: 0 <= k < i ==> Encodes(items[k], parts[k])
      {
        var part := Encoding(items[i]);
        parts, i := parts + [part], i + 1;
      }
      assert EncodeItems(j, parts);
      text := "[" + Joined(parts) + "]";
    case Obj(fields) =>
      var keys := Ordering(fields);
      var values, i := [], 0;
      assert forall k :: 0 <= k < |keys| ==> keys[k] in keys;
      while i < |keys|
        invariant 0 <= i <= |keys| && |values| == i && forall k :: 0 <= k < i ==>
                    keys[k] in fields && Encodes(fields[keys[k]], values[k])
      {
        var value := Encoding(fields[keys[i]]);
        values, i := values + [value], i + 1;
      }
      assert EncodeFields(j, keys, values);
      text := "{" + Joined(Entries(keys, values)) + "}";
  }
}
