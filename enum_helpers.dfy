/**
 * The two helpers that split the keys of a TypeScript enum object.
 *
 * A numeric TypeScript enum compiles to an object that maps each name to its
 * value and each value back to its name, so `Object.keys` lists the numeric
 * keys (ascending) followed by the names (in declaration order).  `getEnumKeys`
 * keeps the keys on which `Number.parseInt` gives NaN (the names);
 * `getEnumValues` keeps the parsed values of the others.  Both functions take
 * the key sequence `Object.keys` returns; `EnumObjectKeys` gives that sequence
 * only for enums whose values increase in declaration order.
 */
module EnumHelpers {
  import opened JsNumbers

  /** `getEnumKeys`: the keys that do not parse as integers, in their original order. */
  function GetEnumKeys(keys: seq<string>): (names: seq<string>)
    ensures |names| <= |keys|
    ensures forall k :: k in names <==> k in keys && ParseInt(k).NaN?
  {
    if keys == [] then []
    else (if ParseInt(keys[0]).NaN? then [keys[0]] else []) + GetEnumKeys(keys[1..])
  }

  /** `getEnumValues`: the integers that the other keys parse to, in their original order. */
  function GetEnumValues(keys: seq<string>): (values: seq<int>)
    ensures |values| <= |keys|
    ensures forall v :: v in values <==> exists k :: k in keys && ParseInt(k) == Int(v)
  {
    if keys == [] then []
    else
      var p := ParseInt(keys[0]);
      assert forall k :: k in keys <==> k == keys[0] || k in keys[1..];
      (if p.NaN? then [] else [p.value]) + GetEnumValues(keys[1..])
  }

  /** getEnumKeys works key by key: splitting the input splits the output, so it never reorders. */
  lemma {:induction false} KeysDistribute(a: seq<string>, b: seq<string>)
    ensures GetEnumKeys(a + b) == GetEnumKeys(a) + GetEnumKeys(b)
  {
    if a == [] {
      assert a + b == b;
    } else {
      assert (a + b)[0] == a[0] && (a + b)[1..] == a[1..] + b;
      KeysDistribute(a[1..], b);
      var head := if ParseInt(a[0]).NaN? then [a[0]] else [];
      calc {
        GetEnumKeys(a + b);
        head + GetEnumKeys(a[1..] + b);
        head + (GetEnumKeys(a[1..]) + GetEnumKeys(b));
        (head + GetEnumKeys(a[1..])) + GetEnumKeys(b);
      }
    }
  }

  /** getEnumValues works key by key: splitting the input splits the output, so it never reorders. */
  lemma {:induction false} ValuesDistribute(a: seq<string>, b: seq<string>)
    ensures GetEnumValues(a + b) == GetEnumValues(a) + GetEnumValues(b)
  {
    if a == [] {
      assert a + b == b;
    } else {
      assert (a + b)[0] == a[0] && (a + b)[1..] == a[1..] + b;
      ValuesDistribute(a[1..], b);
      var p := ParseInt(a[0]);
      var head := if p.NaN? then [] else [p.value];
      calc {
        GetEnumValues(a + b);
        head + GetEnumValues(a[1..] + b);
        head + (GetEnumValues(a[1..]) + GetEnumValues(b));
        (head + GetEnumValues(a[1..])) + GetEnumValues(b);
      }
    }
  }

  /** Every key lands in exactly one of the two outputs. */
  lemma {:induction false} SplitIsPartition(keys: seq<string>)
    ensures |GetEnumKeys(keys)| + |GetEnumValues(keys)| == |keys|
  {
    if keys != [] {
      SplitIsPartition(keys[1..]);
    }
  }

  /**
   * A numeric enum's declarations, `Name = value`, in declaration order, with
   * values strictly increasing.  For such an enum the integer keys that
   * `Object.keys` lists in ascending order come in declaration order too.
   */
  predicate IsAscendingEnum(decls: seq<(string, nat)>) {
    (forall i :: 0 <= i < |decls| ==> IsMemberName(decls[i].0))
    && forall i, j :: 0 <= i < j < |decls| ==> decls[i].1 < decls[j].1
  }

  /** A name that starts like an identifier, as TypeScript requires of an enum member. */
  predicate IsMemberName(name: string) {
    |name| > 0 && !IsWhitespace(name[0]) && name[0] != '+' && name[0] != '-' && !IsDecimalDigit(name[0])
  }

  function Names(decls: seq<(string, nat)>): (names: seq<string>)
    ensures |names| == |decls| && forall i :: 0 <= i < |decls| ==> names[i] == decls[i].0
  {
    seq(|decls|, i requires 0 <= i < |decls| => decls[i].0)
  }

  function Values(decls: seq<(string, nat)>): (values: seq<nat>)
    ensures |values| == |decls| && forall i :: 0 <= i < |decls| ==> values[i] == decls[i].1
  {
    seq(|decls|, i requires 0 <= i < |decls| => decls[i].1)
  }

  /** The decimal spellings of `values`, in order. */
  function Numerals(values: seq<nat>): (keys: seq<string>)
    ensures |keys| == |values| && forall i :: 0 <= i < |values| ==> keys[i] == DecimalString(values[i])
  {
    seq(|values|, i requires 0 <= i < |values| => DecimalString(values[i]))
  }

  /**
   * `Object.keys` of the object an ascending numeric enum compiles to: the
   * values' decimal spellings (ascending), then the names (in declaration
   * order).
   */
  function EnumObjectKeys(decls: seq<(string, nat)>): (keys: seq<string>)
    requires IsAscendingEnum(decls)
    ensures |keys| == 2 * |decls|
  {
    Numerals(Values(decls)) + Names(decls)
  }

  lemma {:induction false} SplitNames(names: seq<string>)
    requires forall i :: 0 <= i < |names| ==> IsMemberName(names[i])
    ensures GetEnumKeys(names) == names
    ensures GetEnumValues(names) == []
  {
    if names != [] {
      NonNumericIsNaN(names[0]);
      SplitNames(names[1..]);
    }
  }

  lemma {:induction false} SplitNumerals(values: seq<nat>)
    ensures GetEnumKeys(Numerals(values)) == []
    ensures GetEnumValues(Numerals(values)) == values
  {
    if values != [] {
      DecimalRoundTrip(values[0]);
      assert Numerals(values)[1..] == Numerals(values[1..]);
      SplitNumerals(values[1..]);
    }
  }

  /** Numeric keys followed by member names split back into the values and the names, each in its own order. */
  lemma SplitKeys(values: seq<nat>, names: seq<string>)
    requires forall i :: 0 <= i < |names| ==> IsMemberName(names[i])
    ensures GetEnumKeys(Numerals(values) + names) == names
    ensures GetEnumValues(Numerals(values) + names) == values
  {
    KeysDistribute(Numerals(values), names);
    ValuesDistribute(Numerals(values), names);
    SplitNumerals(values);
    SplitNames(names);
  }

  /**
   * For an ascending numeric enum the two helpers return the names and the
   * values in equal numbers and in matching positions: the i-th key and the
   * i-th value belong to the same declaration, which is how the fan-speed
   * select pairs them.
   */
  lemma ReverseMappedEnumSplit(decls: seq<(string, nat)>)
    requires IsAscendingEnum(decls)
    ensures |GetEnumKeys(EnumObjectKeys(decls))| == |GetEnumValues(EnumObjectKeys(decls))| == |decls|
    ensures forall i :: 0 <= i < |decls| ==>
              GetEnumKeys(EnumObjectKeys(decls))[i] == decls[i].0 && GetEnumValues(EnumObjectKeys(decls))[i] == decls[i].1
  {
    assert EnumObjectKeys(decls) == Numerals(Values(decls)) + Names(decls);
    SplitKeys(Values(decls), Names(decls));
  }

  /**
   * For an enum declared out of order, `enum { B = 2, A = 1 }`, `Object.keys`
   * gives the integer keys ascending and the names in declaration order, so
   * pairing by position puts `B` with 1: the pairing needs ascending values.
   */
  lemma DescendingEnumMispairs(keys: seq<string>)
    requires keys == ["1", "2", "B", "A"]
    ensures GetEnumKeys(keys) == ["B", "A"]
    ensures GetEnumValues(keys) == [1, 2]
  {
    var numerals, names := keys[..2], keys[2..];
    assert keys == numerals + names;
    assert numerals == Numerals([1, 2]) by {
      assert DecimalString(1) == "1" && DecimalString(2) == "2";
    }
    assert IsMemberName(names[0]) && IsMemberName(names[1]);
    SplitKeys([1, 2], names);
  }


  /** `FanSpeedEnum { Low = 1, Medium = 2, High = 3 }` as the fan-speed select sees it: Low, Medium, High paired with 1, 2, 3. */
  lemma FanSpeedEnumSplit(keys: seq<string>)
    requires keys == ["1", "2", "3", "Low", "Medium", "High"]
    ensures GetEnumKeys(keys) == ["Low", "Medium", "High"]
    ensures GetEnumValues(keys) == [1, 2, 3]
  {
    var numerals, names := keys[..3], keys[3..];
    assert keys == numerals + names;
    assert numerals == Numerals([1, 2, 3]) by {
      assert DecimalString(1) == "1" && DecimalString(2) == "2" && DecimalString(3) == "3";
    }
    assert IsMemberName(names[0]) && IsMemberName(names[1]) && IsMemberName(names[2]);
    SplitKeys([1, 2, 3], names);
  }

}
