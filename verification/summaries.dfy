/** The pieces of the human-readable summary of a filter form (`__unicode__`):
    the operator table, how a filter key is split back into a field name and an
    operator, how one entry line is formatted, and how the lines are put in the
    form's field order. */
module Summaries {
  import opened Python
  import opened Filters

  /** The operator mapping of `__unicode__`: key suffix and the word shown for it.
      The translated words `contains` and `between` are taken untranslated. */
  const Operators: seq<(string, string)> :=
    [("__gt", ">"), ("__gte", ">="), ("__lt", "<"), ("__lte", "<="),
     ("__contains", "contains"), ("__range", "between")]

  /** Two suffixes of one string: the shorter is a suffix of the longer. */
  lemma SuffixOfSuffix(s: string, a: string, b: string)
    ensures EndsWith(s, a) && EndsWith(s, b) && |a| <= |b| ==> EndsWith(b, a)
  {
    if EndsWith(s, a) && EndsWith(s, b) && |a| <= |b| {
      forall k | 0 <= k < |a| ensures b[|b| - |a| + k] == a[k] {
        assert s[|s| - |a|..][k] == a[k];
        assert s[|s| - |b|..][|b| - |a| + k] == b[|b| - |a| + k];
      }
      assert b[|b| - |a|..] == a;
    }
  }

  /** No suffix of the table ends with another one. */
  lemma OperatorsSuffixFree()
    ensures forall i, j :: 0 <= i < |Operators| && 0 <= j < |Operators| && i != j ==> !EndsWith(Operators[j].0, Operators[i].0)
  {
    forall i, j | 0 <= i < |Operators| && 0 <= j < |Operators| && i != j
      ensures !EndsWith(Operators[j].0, Operators[i].0)
    {
      var a, b := Operators[i].0, Operators[j].0;
      if |a| <= |b| {
        assert b[|b| - 1] != a[|a| - 1] || b[|b| - 2] != a[|a| - 2] || b[|b| - 3] != a[|a| - 3];
        assert b[|b| - |a|..][|a| - 1] == b[|b| - 1];
        assert b[|b| - |a|..][|a| - 2] == b[|b| - 2];
        assert b[|b| - |a|..][|a| - 3] == b[|b| - 3];
      }
    }
  }

  /** A key ends with at most one suffix of the table, so the order in which
      `__unicode__` tries them does not matter. */
  lemma SuffixesExclusive(key: string)
    ensures forall i, j :: (0 <= i < |Operators| && 0 <= j < |Operators|
              && EndsWith(key, Operators[i].0) && EndsWith(key, Operators[j].0)) ==> i == j
  {
    OperatorsSuffixFree();
    forall i, j | 0 <= i < |Operators| && 0 <= j < |Operators|
      ensures EndsWith(key, Operators[i].0) && EndsWith(key, Operators[j].0) ==> i == j
    {
      SuffixOfSuffix(key, Operators[i].0, Operators[j].0);
      SuffixOfSuffix(key, Operators[j].0, Operators[i].0);
    }
  }

  /** The field name and operator `__unicode__` reads off a filter key: the part
      before the first occurrence of the matching suffix and that suffix's word,
      or the whole key and "=" when no suffix matches. */
  ghost function SplitKey(key: string): (r: (string, string))
    ensures forall j :: 0 <= j < |Operators| && EndsWith(key, Operators[j].0)
              ==> r == (PartitionHead(key, Operators[j].0), Operators[j].1)
    ensures (forall j :: 0 <= j < |Operators| ==> !EndsWith(key, Operators[j].0)) ==> r == (key, "=")
  {
    SuffixesExclusive(key);
    if exists j :: 0 <= j < |Operators| && EndsWith(key, Operators[j].0) then
      var j :| 0 <= j < |Operators| && EndsWith(key, Operators[j].0);
      (PartitionHead(key, Operators[j].0), Operators[j].1)
    else
      (key, "=")
  }

  /** The inner loop of `__unicode__`: try each suffix, `break` on the first that
      matches, and fall back to "=" in the loop's `else`. */
  method MatchOperator(key: string) returns (fieldname: string, operator: string)
    ensures (fieldname, operator) == SplitKey(key)
  {
    var j := 0;
    while j < |Operators|
      invariant 0 <= j <= |Operators|
      invariant forall i :: 0 <= i < j ==> !EndsWith(key, Operators[i].0)
    {
      var (suffix, word) := Operators[j];
      if EndsWith(key, suffix) {
        return PartitionHead(key, suffix), word;
      }
      j := j + 1;
    }
    return key, "=";
  }

  /** The label of a bound field: the field's own, or Django's `pretty_name` of its name. */
  function LabelOf(conf: FieldConf, name: string, prettyName: string -> string): string
  {
    match conf.fieldLabel
    case Some(text) => text
    case None => prettyName(name)
  }

  /** One entry line: a string is quoted, a list shows its elements quoted and
      joined by " and ", anything else (a tuple included) is written unquoted. */
  function FormatEntry(caption: string, operator: string, value: Value): string
  {
    match value
    case VStr(s) => caption + " " + operator + " \"" + s + "\""
    case VList(xs) =>
      caption + " " + operator + " "
      + Join(" and ", seq(|xs|, k requires 0 <= k < |xs| => "\"" + Str(xs[k]) + "\""))
    case _ => caption + " " + operator + " " + Str(value)
  }

  /** The line `__unicode__` writes for filter key `k`. */
  ghost function LineFor(fields: map<string, FieldConf>, prettyName: string -> string, filters: map<string, Value>, k: string): string
    requires k in filters && SplitKey(k).0 in fields
  {
    var (name, operator) := SplitKey(k);
    FormatEntry(LabelOf(fields[name], name, prettyName), operator, filters[k])
  }

  /** `entries` as `__unicode__` leaves it: one line per field named by some key,
      each the line of one of the keys that name that field (which one depends on
      the dict's iteration order). */
  ghost predicate IsEntries(fields: map<string, FieldConf>, prettyName: string -> string,
                            filters: map<string, Value>, entries: map<string, string>)
  {
    && entries.Keys == (set k | k in filters :: SplitKey(k).0)
    && forall name :: name in entries ==>
         name in fields
         && exists k :: k in filters && SplitKey(k).0 == name && entries[name] == LineFor(fields, prettyName, filters, k)
  }

  /** The entries that exist, in the given field order. */
  function Present(order: seq<string>, entries: map<string, string>): seq<string>
  {
    if order == [] then []
    else (if order[0] in entries then [entries[order[0]]] else []) + Present(order[1..], entries)
  }

  /** `u'\n'.join(entries[field.name] for field in self if field.name in entries)`. */
  function JoinLines(order: seq<string>, entries: map<string, string>): string
  {
    Join("\n", Present(order, entries))
  }

  // ---------------------------------------------------------------------------
  // Properties

  /** A list and a tuple of the same bounds filter alike but are shown differently:
      only a list has its elements quoted and joined by " and ". */
  lemma ListAndTupleEntries()
    ensures FormatEntry("Price", "between", VList([VInt(1), VInt(2)])) == "Price between \"1\" and \"2\""
    ensures FormatEntry("Price", "between", VTuple([VInt(1), VInt(2)])) == "Price between (1, 2)"
  {
    var xs := [VInt(1), VInt(2)];
    OneTwo();
    var quoted := seq(|xs|, k requires 0 <= k < |xs| => "\"" + Str(xs[k]) + "\"");
    assert quoted[0] == "\"1\"" && quoted[1] == "\"2\"";
    assert quoted == ["\"1\"", "\"2\""];
    JoinTwo(" and ", "\"1\"", "\"2\"");
    var reprs := seq(|xs|, k requires 0 <= k < |xs| => Repr(xs[k]));
    assert reprs[0] == "1" && reprs[1] == "2";
    assert reprs == ["1", "2"];
    JoinTwo(", ", "1", "2");
  }

  lemma OneTwo()
    ensures Repr(VInt(1)) == "1" && Repr(VInt(2)) == "2"
    ensures Str(VInt(1)) == "1" && Str(VInt(2)) == "2"
  {
    assert DigitChar(1) == '1' && DigitChar(2) == '2';
  }

  lemma JoinTwo(sep: string, a: string, b: string)
    ensures Join(sep, [a, b]) == a + sep + b
  {
    assert [a, b][1..] == [b];
  }

  /** A key formed from an operator of the table splits back into its field and
      that operator, unless the suffix already occurs earlier in the key. */
  lemma SplitKeyOfKey(field: string, j: nat)
    requires j < |Operators|
    requires forall i :: 0 <= i < |field| ==> !IsAt(field + Operators[j].0, Operators[j].0, i)
    ensures SplitKey(field + Operators[j].0) == (field, Operators[j].1)
  {
    var sep := Operators[j].0;
    var key := field + sep;
    assert key[|key| - |sep|..] == sep;
    assert IsAt(key, sep, |field|) by {
      assert key[|field|..|field| + |sep|] == sep;
    }
    var found := FindFrom(key, sep, 0);
    assert found == Some(|field|);
    assert key[..|field|] == field;
  }

  /** The same, for the key `Key` forms from a lookup of the table. */
  lemma SplitKeyOfLookup(field: string, lookup: string, j: nat)
    requires j < |Operators| && Operators[j].0 == "__" + lookup
    requires forall i :: 0 <= i < |field| ==> !IsAt(field + Operators[j].0, Operators[j].0, i)
    ensures SplitKey(Key(field, lookup)) == (field, Operators[j].1)
  {
    var sep := Operators[j].0;
    assert sep[|sep| - 1] != '_' by {
      assert j == 0 || j == 1 || j == 2 || j == 3 || j == 4 || j == 5;
    }
    assert lookup[|lookup| - 1] == sep[|sep| - 1];
    KeyWithLookup(field, lookup);
    assert field + "__" + lookup == field + sep;
    SplitKeyOfKey(field, j);
  }

  /** `icontains` is not in the table, so its key is shown whole with "=". */
  lemma SplitKeyUnlisted(field: string)
    ensures SplitKey(field + "__icontains") == (field + "__icontains", "=")
  {
    var key := field + "__icontains";
    assert EndsWith(key, "__icontains") by {
      assert key[|key| - 11..] == "__icontains";
    }
    forall j | 0 <= j < |Operators| ensures !EndsWith(key, Operators[j].0) {
      var sep := Operators[j].0;
      SuffixOfSuffix(key, sep, "__icontains");
      var t := "__icontains";
      assert t[|t| - |sep|..][|sep| - 1] == t[|t| - 1];
      if |sep| == 10 {
        assert t[|t| - |sep|..][1] == t[2];
      }
    }
  }

  /** `partition` cuts at the FIRST occurrence: a field named "a__gt" with lookup
      "gt" gives the key "a__gt__gt", which is read back as field "a". */
  lemma SplitKeyFirstOccurrence()
    ensures SplitKey(Key("a__gt", "gt")) == ("a", ">")
  {
    var key := "a__gt__gt";
    KeyWithLookup("a__gt", "gt");
    assert "a__gt" + "__" + "gt" == key;
    assert EndsWith(key, "__gt") by {
      assert key[|key| - 4..] == "__gt";
    }
    assert !IsAt(key, "__gt", 0) by {
      assert key[0] == 'a';
    }
    assert IsAt(key, "__gt", 1) by {
      forall i | 0 <= i < 4 ensures key[1..5][i] == "__gt"[i] {
      }
      assert key[1..5] == "__gt";
    }
    assert FindFrom(key, "__gt", 0) == Some(1);
    assert key[..1] == "a";
    assert PartitionHead(key, "__gt") == "a";
    assert Operators[0] == ("__gt", ">");
    assert Key("a__gt", "gt") == key;
  }

  predicate NoRepeats(order: seq<string>)
  {
    forall i, j :: 0 <= i < j < |order| ==> order[i] != order[j]
  }

  /** The names of `order` that have an entry. */
  ghost function Listed(order: seq<string>, entries: map<string, string>): set<string>
  {
    set n | n in order && n in entries
  }

  lemma ListedSplit(order: seq<string>, entries: map<string, string>)
    requires order != []
    ensures Listed(order, entries)
            == (if order[0] in entries then {order[0]} else {}) + Listed(order[1..], entries)
  {
    forall n | n in Listed(order, entries) && n != order[0] ensures n in Listed(order[1..], entries) {
      var i :| 0 <= i < |order| && order[i] == n;
      assert order[1..][i - 1] == n;
    }
  }

  /** With a field order free of repeats, there is exactly one line per listed
      field that has an entry. */
  lemma {:induction false} PresentCount(order: seq<string>, entries: map<string, string>)
    requires NoRepeats(order)
    ensures |Present(order, entries)| == |Listed(order, entries)|
  {
    if order != [] {
      var tail := order[1..];
      assert NoRepeats(tail) by {
        forall i, j | 0 <= i < j < |tail| ensures tail[i] != tail[j] {
          assert tail[i] == order[i + 1] && tail[j] == order[j + 1];
        }
      }
      assert order[0] !in tail by {
        forall i | 0 <= i < |tail| ensures tail[i] != order[0] {
          assert tail[i] == order[i + 1];
        }
      }
      PresentCount(tail, entries);
      ListedSplit(order, entries);
      assert order[0] !in Listed(tail, entries);
    }
  }

  /** When the order covers every entry, the lines are exactly one per entry. */
  lemma PresentOnePerEntry(order: seq<string>, entries: map<string, string>)
    requires NoRepeats(order)
    requires forall n :: n in entries ==> n in order
    ensures |Present(order, entries)| == |entries|
  {
    PresentCount(order, entries);
    assert Listed(order, entries) == entries.Keys;
  }
}
