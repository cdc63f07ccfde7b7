/** The fingerprint of a command: a canonical text that cannot be two things at once. */
module Idempotency {
  import opened Base
  import opened MoneyText

  type Fields = map<string, string>

  /* ---- byte order on keys ---- */

  predicate Before(a: string, b: string) {
    if a == "" then b != ""
    else if b == "" then false
    else a[0] < b[0] || (a[0] == b[0] && Before(a[1..], b[1..]))
  }

  lemma {:induction false} BeforeTotal(a: string, b: string)
    ensures a == b || Before(a, b) || Before(b, a)
    ensures !(Before(a, b) && Before(b, a)) && !Before(a, a)
  {
    if a != "" && b != "" {
      BeforeTotal(a[1..], b[1..]);
      if a[0] == b[0] && a[1..] == b[1..] { assert a == [a[0]] + a[1..] == b; }
    }
    if a != "" { BeforeTotal(a[1..], a[1..]); }
  }

  lemma {:induction false} BeforeTransitive(a: string, b: string, c: string)
    requires Before(a, b) && Before(b, c)
    ensures Before(a, c)
  {
    if a != "" && b != "" && c != "" && a[0] == b[0] == c[0] {
      BeforeTransitive(a[1..], b[1..], c[1..]);
    }
  }

  predicate Ascending(keys: seq<string>) {
    forall i, j :: 0 <= i < j < |keys| ==> Before(keys[i], keys[j])
  }

  /** The keys of a map, each once, in byte order. */
  ghost predicate SortedKeys(keys: seq<string>, fields: Fields) {
    Ascending(keys) && forall k :: k in keys <==> k in fields
  }

  /* ---- rendering ---- */

  function Counted(text: string): string {
    Numeral(|text|) + ":" + text
  }

  function Field(key: string, value: string): string {
    Counted(key) + "=" + Counted(value) + ";"
  }

  function Render(keys: seq<string>, fields: Fields): string
    requires forall k :: k in keys ==> k in fields
  {
    if keys == [] then "" else Field(keys[0], fields[keys[0]]) + Render(keys[1..], fields)
  }

  function Insert(key: string, keys: seq<string>): seq<string> {
    if keys == [] || Before(key, keys[0]) then [key] + keys else [keys[0]] + Insert(key, keys[1..])
  }

  lemma {:induction false} InsertMembers(key: string, keys: seq<string>, k: string)
    ensures k in Insert(key, keys) <==> k == key || k in keys
  {
    if keys != [] && !Before(key, keys[0]) {
      InsertMembers(key, keys[1..], k);
      assert keys == [keys[0]] + keys[1..];
    }
  }

  lemma {:induction false} InsertKeepsOrder(key: string, keys: seq<string>)
    requires Ascending(keys) && key !in keys
    ensures Ascending(Insert(key, keys))
  {
    if keys == [] {
    } else if Before(key, keys[0]) {
      forall j | 0 <= j < |keys|
        ensures Before(key, keys[j])
      {
        if 0 < j { BeforeTransitive(key, keys[0], keys[j]); }
      }
    } else {
      InsertKeepsOrder(key, keys[1..]);
      BeforeTotal(key, keys[0]);
      var rest := Insert(key, keys[1..]);
      forall j | 0 <= j < |rest|
        ensures Before(keys[0], rest[j])
      {
        InsertMembers(key, keys[1..], rest[j]);
        if rest[j] != key {
          var i :| 0 <= i < |keys[1..]| && keys[1..][i] == rest[j];
          assert keys[i + 1] == rest[j];
        }
      }
    }
  }

  /** A set of keys in byte order, taken out in no particular order. */
  ghost function SortKeys(keys: set<string>): (r: seq<string>)
    ensures Ascending(r) && forall k :: k in r <==> k in keys
  {
    if keys == {} then []
    else
      var key :| key in keys;
      var rest := SortKeys(keys - {key});
      InsertKeepsOrder(key, rest);
      assert forall k :: k in Insert(key, rest) <==> k == key || k in rest by {
        forall k ensures k in Insert(key, rest) <==> k == key || k in rest { InsertMembers(key, rest, k); }
      }
      Insert(key, rest)
  }

  /** The canonical text of a map of fields. */
  ghost function Canonical(fields: Fields): string {
    Render(SortKeys(fields.Keys), fields)
  }

  /** A field is written as its key and its value, each after its length: 2:ab=1:c; for instance. */
  lemma FieldText(key: string, value: string)
    ensures Canonical(map[key := value])
            == Numeral(|key|) + ":" + key + "=" + Numeral(|value|) + ":" + value + ";"
  {
    hide SortKeys, Before, Numeral;
    var fields := map[key := value];
    assert SortedKeys(SortKeys(fields.Keys), fields) && SortedKeys([key], fields);
    SortedKeysUnique(SortKeys(fields.Keys), [key], fields);
    assert [key][1..] == [];
    assert Render([key], fields) == Field(key, value) + Render([], fields);
  }

  /**
   * Collects the keys in whatever order the map gives them, sorts them, and
   * writes each field with its lengths: the result does not depend on that order.
   */
  method Canonicalise(fields: Fields) returns (text: string)
    ensures text == Canonical(fields)
  {
    var sorted: seq<string> := [];
    var left := fields.Keys;
    while left != {}
      invariant left <= fields.Keys && Ascending(sorted)
      invariant forall k :: k in sorted <==> k in fields && k !in left
      decreases |left|
    {
      var key :| key in left;
      InsertKeepsOrder(key, sorted);
      forall k ensures k in Insert(key, sorted) <==> k == key || k in sorted { InsertMembers(key, sorted, k); }
      sorted := Insert(key, sorted);
      left := left - {key};
    }
    text := Write(sorted, fields);
    SortedKeysUnique(sorted, SortKeys(fields.Keys), fields);
  }

  /** The builder's writes for one field. */
  method WriteField(text: string, key: string, value: string) returns (r: string)
    ensures r == text + Field(key, value)
  {
    hide Numeral;
    r := text + Numeral(|key|);
    r := r + ":";
    r := r + key;
    Associate(text, Numeral(|key|), ":");
    Associate(text, Numeral(|key|) + ":", key);
    r := r + "=";
    Associate(text, Counted(key), "=");
    ghost var front := Counted(key) + "=";
    r := r + Numeral(|value|);
    r := r + ":";
    r := r + value;
    Associate(text + front, Numeral(|value|), ":");
    Associate(text + front, Numeral(|value|) + ":", value);
    Associate(text, front, Counted(value));
    r := r + ";";
    Associate(text, front + Counted(value), ";");
  }

  /** The string builder's loop. */
  method Write(keys: seq<string>, fields: Fields) returns (text: string)
    requires forall k :: k in keys ==> k in fields
    ensures text == Render(keys, fields)
  {
    hide Numeral;
    text := "";
    var i := 0;
    while i < |keys|
      invariant i <= |keys|
      invariant text + Render(keys[i..], fields) == Render(keys, fields)
    {
      var key := keys[i];
      var value := fields[key];
      assert keys[i..][1..] == keys[i + 1..];
      ghost var before := text;
      text := WriteField(text, key, value);
      Associate(before, Field(key, value), Render(keys[i + 1..], fields));
      i := i + 1;
    }
  }

  /** Iteration order cannot matter: the ascending list of a map's keys is unique. */
  lemma {:induction false} SortedKeysUnique(a: seq<string>, b: seq<string>, fields: Fields)
    requires SortedKeys(a, fields) && SortedKeys(b, fields)
    ensures a == b
  {
    assert forall i :: 0 <= i < |a| ==> a[i] in fields && a[i] in b;
    assert forall i :: 0 <= i < |b| ==> b[i] in fields && b[i] in a;
    assert (a != [] ==> a[0] in b) && (b != [] ==> b[0] in a);
    if a == [] || b == [] {
      assert a == [] && b == [];
    } else {
      assert a[0] in fields && b[0] in fields;
      assert a[0] in b && b[0] in a;
      var i :| 0 <= i < |b| && b[i] == a[0];
      var j :| 0 <= j < |a| && a[j] == b[0];
      BeforeTotal(a[0], b[0]);
      assert a[0] == b[0];
      forall k
        ensures k in a[1..] <==> k in fields - {a[0]}
        ensures k in b[1..] <==> k in fields - {a[0]}
      {
        TailKeys(a, k);
        TailKeys(b, k);
      }
      SortedKeysUnique(a[1..], b[1..], fields - {a[0]});
      assert a == [a[0]] + a[1..] && b == [b[0]] + b[1..];
    }
  }

  lemma TailKeys(keys: seq<string>, k: string)
    requires keys != [] && Ascending(keys)
    ensures k in keys[1..] <==> k in keys && k != keys[0]
  {
    BeforeTotal(keys[0], keys[0]);
    if k in keys && k != keys[0] {
      var i :| 0 <= i < |keys| && keys[i] == k;
      assert keys[1..][i - 1] == k;
    }
  }

  /* ---- reading it back ---- */

  /** A length, its colon, and that many characters. */
  function TakeCounted(s: string): Option<(string, string)> {
    var digits := Run(s);
    var rest := s[|digits|..];
    if digits == "" || rest == "" || rest[0] != ':' then None else TakeExactly(Digits(digits), rest[1..])
  }

  function TakeExactly(n: nat, s: string): Option<(string, string)> {
    if |s| < n then None else Some((s[..n], s[n..]))
  }

  lemma RunBeforeColon(n: string, tail: string)
    requires AllDigits(n) && tail != "" && tail[0] == ':'
    ensures Run(n + tail) == n && (n + tail)[|n|..] == tail
  {
    hide Run;
    var s := n + tail;
    assert s[..|n|] == n && s[|n|] == ':';
    RunIs(s, |n|);
  }

  lemma CountedShape(value: string, rest: string)
    ensures Counted(value) + rest == Numeral(|value|) + (":" + (value + rest))
  {
    hide Numeral;
    var n := Numeral(|value|);
    Associate(n, ":", value);
    Associate(n, ":" + value, rest);
    Associate(":", value, rest);
  }

  lemma Associate(a: string, b: string, c: string)
    ensures a + b + c == a + (b + c)
  {
  }

  lemma TakeCountedReads(value: string, rest: string)
    ensures TakeCounted(Counted(value) + rest) == Some((value, rest))
  {
    hide Digits, Numeral, Run, Counted;
    var n, tail := Numeral(|value|), ":" + (value + rest);
    CountedShape(value, rest);
    RunBeforeColon(n, tail);
    assert tail[1..] == value + rest;
    TakeExactlyReads(value, rest);
  }

  lemma TakeExactlyReads(value: string, rest: string)
    ensures TakeExactly(|value|, value + rest) == Some((value, rest))
  {
    assert (value + rest)[..|value|] == value && (value + rest)[|value|..] == rest;
  }

  /** The inverse of rendering. */
  function Decode(s: string): Option<Fields>
    decreases |s|
  {
    if s == "" then Some(map[])
    else
      match TakeCounted(s)
      case None => None
      case Some((key, afterKey)) =>
        if afterKey == "" || afterKey[0] != '=' then None
        else
          match TakeCounted(afterKey[1..])
          case None => None
          case Some((value, afterValue)) =>
            if afterValue == "" || afterValue[0] != ';' || |afterValue| > |s| then None
            else
              match Decode(afterValue[1..])
              case None => None
              case Some(more) => Some(more[key := value])
  }

  function Restrict(keys: seq<string>, fields: Fields): Fields
    requires forall k :: k in keys ==> k in fields
  {
    map k | k in keys :: fields[k]
  }

  lemma FieldShape(key: string, value: string, rest: string)
    ensures Field(key, value) + rest == Counted(key) + ("=" + (Counted(value) + (";" + rest)))
  {
    hide Counted;
  }

  lemma DecodeField(key: string, value: string, rest: string)
    requires Decode(rest).Some?
    ensures Decode(Field(key, value) + rest) == Some(Decode(rest).value[key := value])
  {
    hide TakeCounted, Counted, Field;
    var afterValue := ";" + rest;
    var afterKey := "=" + (Counted(value) + afterValue);
    FieldShape(key, value, rest);
    TakeCountedReads(key, afterKey);
    assert afterKey[1..] == Counted(value) + afterValue;
    TakeCountedReads(value, afterValue);
    assert afterValue[1..] == rest;
    CountedIsNotEmpty(key);
  }

  lemma CountedIsNotEmpty(text: string)
    ensures |Counted(text)| > |text|
  {
  }

  lemma {:induction false} DecodeRendered(keys: seq<string>, fields: Fields)
    requires forall k :: k in keys ==> k in fields
    ensures Decode(Render(keys, fields)) == Some(Restrict(keys, fields))
  {
    hide Field, Decode;
    if keys == [] {
      DecodeNothing();
      assert Restrict(keys, fields) == map[];
    } else {
      DecodeRendered(keys[1..], fields);
      DecodeField(keys[0], fields[keys[0]], Render(keys[1..], fields));
      assert Restrict(keys, fields) == Restrict(keys[1..], fields)[keys[0] := fields[keys[0]]];
    }
  }

  lemma DecodeNothing()
    ensures Decode("") == Some(map[])
  {
  }

  /** The canonical text has an inverse. */
  lemma CanonicalDecodes(fields: Fields)
    ensures Decode(Canonical(fields)) == Some(fields)
  {
    hide Decode, Render;
    var keys := SortKeys(fields.Keys);
    DecodeRendered(keys, fields);
    assert Restrict(keys, fields) == fields;
  }

  /** Two maps share a canonical text exactly when they are the same map. */
  lemma CanonicalIsInjective(a: Fields, b: Fields)
    ensures Canonical(a) == Canonical(b) <==> a == b
  {
    hide Decode, Canonical;
    CanonicalDecodes(a);
    CanonicalDecodes(b);
  }
}
