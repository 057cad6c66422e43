/** The filter-predicate builder of a filter form: alias resolution through
    FILTERMETHODS, key formation, the per-field dict of `_field_as_filter` and
    the merge done by `get_filter_dict`. */
module Filters {
  import opened Python

  /** A descriptor's filter method: a name (a lookup or an alias), or the lookups
      given directly as a tuple or as a list. */
  datatype Method = Name(name: string) | TupleOf(lookups: seq<string>) | ListOf(lookups: seq<string>)

  /** What the form keeps of one field: its label (None lets Django derive one
      from the field name) and its filter method. */
  datatype FieldConf = FieldConf(fieldLabel: Option<string>, filtermethod: Method)

  /** FILTERMETHODS: the only aliases, each standing for a pair of Django lookups. */
  const FilterMethods: map<string, (string, string)> :=
    map["min_max" := ("gte", "lte"), "inner_range" := ("gt", "lt")]

  /** A filter method after alias resolution: one lookup, or a sequence of lookups
      to be zipped with a sequence of values. */
  datatype Lookups = Single(lookup: string) | Several(lookups: seq<string>)

  /** `FILTERMETHODS.get(filtermethod, filtermethod)`: an alias gives its pair, a
      tuple is not a key and comes back as it is, and a list cannot be hashed. */
  function Resolve(filtermethod: Method): Result<Lookups>
  {
    match filtermethod
    case Name(n) =>
      if n in FilterMethods then Ok(Several([FilterMethods[n].0, FilterMethods[n].1])) else Ok(Single(n))
    case TupleOf(lookups) => Ok(Several(lookups))
    case ListOf(_) => Err(TypeError("unhashable type: 'list'"))
  }

  /** `'{0}__{1}'.format(field, lookup).rstrip('_')`. */
  function Key(field: string, lookup: string): string
  {
    RStripUnderscores(field + "__" + lookup)
  }

  /** The dict comprehension over `zip(lookups, values)`: each truthy value is
      stored under its lookup's key, and a later pair overwrites an earlier one
      with the same key. */
  function ZipFilter(field: string, lookups: seq<string>, values: seq<Value>): (r: map<string, Value>)
    requires |lookups| == |values|
    ensures forall k :: 0 <= k < |values| && Truthy(values[k]) ==> Key(field, lookups[k]) in r
    decreases |values|
  {
    if values == [] then map[]
    else
      var n := |values| - 1;
      var m := ZipFilter(field, lookups[..n], values[..n]);
      assert forall k :: 0 <= k < n ==> lookups[..n][k] == lookups[k] && values[..n][k] == values[k];
      if Truthy(values[n]) then m[Key(field, lookups[n]) := values[n]] else m
  }

  /** Pair `k` of the zip forms `key` with a truthy value, and no later truthy pair forms it again. */
  ghost predicate ZipLast(field: string, lookups: seq<string>, values: seq<Value>, key: string, k: int)
    requires |lookups| == |values|
  {
    && 0 <= k < |values| && Truthy(values[k]) && Key(field, lookups[k]) == key
    && forall j :: k < j < |values| && Truthy(values[j]) ==> Key(field, lookups[j]) != key
  }

  /** Each key of the comprehension comes from a truthy pair and holds the value
      of the last truthy pair that forms it. */
  lemma {:induction false} ZipFilterLastWins(field: string, lookups: seq<string>, values: seq<Value>, key: string)
    returns (k: int)
    requires |lookups| == |values|
    requires key in ZipFilter(field, lookups, values)
    ensures ZipLast(field, lookups, values, key, k)
    ensures ZipFilter(field, lookups, values)[key] == values[k]
    decreases |values|
  {
    var n := |values| - 1;
    if Truthy(values[n]) && Key(field, lookups[n]) == key {
      k := n;
    } else {
      k := ZipFilterLastWins(field, lookups[..n], values[..n], key);
      assert lookups[..n][k] == lookups[k] && values[..n][k] == values[k];
      forall j | k < j < |values| && Truthy(values[j]) ensures Key(field, lookups[j]) != key {
        if j < n {
          assert lookups[..n][j] == lookups[j] && values[..n][j] == values[j];
        }
      }
    }
  }

  /** `_field_as_filter(fieldname, ...)`: the value is always read from the form's
      own cleaned data, never from the caller's. */
  function FieldAsFilter(fields: map<string, FieldConf>, cleaned: Items, fieldname: string): Result<map<string, Value>>
  {
    if fieldname !in fields then Err(KeyError(fieldname))
    else
      match Get(cleaned, fieldname)
      case None => Err(KeyError(fieldname))
      case Some(v) =>
        match Resolve(fields[fieldname].filtermethod)
        case Err(e) => Err(e)
        case Ok(Several(lookups)) =>
          if !(v.VList? || v.VTuple?) || |v.items| != |lookups| then Err(AssertionError)
          else Ok(ZipFilter(fieldname, lookups, v.items))
        case Ok(Single(lookup)) => Ok(map[Key(fieldname, lookup) := v])
  }

  /** `get_filter_dict(items)`: visit the items in order, skip falsy ones, and
      `update` the result with each visited field's dict; the first error is raised. */
  function FilterDict(fields: map<string, FieldConf>, cleaned: Items, items: Items): Result<map<string, Value>>
    decreases |items|
  {
    if items == [] then Ok(map[])
    else
      match FilterDict(fields, cleaned, items[..|items| - 1])
      case Err(e) => Err(e)
      case Ok(d) =>
        var (name, v) := items[|items| - 1];
        if !Truthy(v) then Ok(d)
        else
          match FieldAsFilter(fields, cleaned, name)
          case Err(e) => Err(e)
          case Ok(part) => Ok(d + part)
  }

  /** The dict one field contributes (empty where `_field_as_filter` raises). */
  ghost function PartOf(fields: map<string, FieldConf>, cleaned: Items, fieldname: string): map<string, Value>
  {
    match FieldAsFilter(fields, cleaned, fieldname)
    case Ok(part) => part
    case Err(_) => map[]
  }

  // ---------------------------------------------------------------------------
  // Keys

  /** An empty filter method gives the bare field name, with the field's own
      trailing underscores stripped as well. */
  lemma KeyExactMatch(field: string)
    ensures Key(field, "") == RStripUnderscores(field)
    ensures field == [] || field[|field| - 1] != '_' ==> Key(field, "") == field
  {
    assert field + "__" + "" == (field + "_") + "_";
    RStripAppendUnderscore(field + "_");
    RStripAppendUnderscore(field);
  }

  /** A non-empty lookup that does not end in '_' is kept whole after "<field>__". */
  lemma KeyWithLookup(field: string, lookup: string)
    requires lookup != [] && lookup[|lookup| - 1] != '_'
    ensures Key(field, lookup) == field + "__" + lookup
  {
    var s := field + "__" + lookup;
    assert s[|s| - 1] == lookup[|lookup| - 1];
  }

  // ---------------------------------------------------------------------------
  // One field: _field_as_filter

  /** Only `min_max` and `inner_range` are aliases; every other name, `range`,
      `icontains` and `minmax` included, is a single lookup passed through; a tuple
      is used as it is and a list raises TypeError. */
  lemma ResolveAliases(filtermethod: Method)
    ensures filtermethod == Name("min_max") ==> Resolve(filtermethod) == Ok(Several(["gte", "lte"]))
    ensures filtermethod == Name("inner_range") ==> Resolve(filtermethod) == Ok(Several(["gt", "lt"]))
    ensures (filtermethod.Name? && filtermethod.name != "min_max" && filtermethod.name != "inner_range")
              ==> Resolve(filtermethod) == Ok(Single(filtermethod.name))
    ensures filtermethod.TupleOf? ==> Resolve(filtermethod) == Ok(Several(filtermethod.lookups))
    ensures filtermethod.ListOf? ==> Resolve(filtermethod).Err? && Resolve(filtermethod).error.TypeError?
  {
  }

  /** A field that is not a form field, or has no entry in the form's cleaned
      data, raises KeyError. */
  lemma FieldAsFilterMissing(fields: map<string, FieldConf>, cleaned: Items, fieldname: string)
    requires fieldname !in fields || forall i :: 0 <= i < |cleaned| ==> cleaned[i].0 != fieldname
    ensures FieldAsFilter(fields, cleaned, fieldname) == Err(KeyError(fieldname))
  {
  }

  /** A lookup given by name maps one key to the whole cleaned value (a list stays a list). */
  lemma FieldAsFilterSingle(fields: map<string, FieldConf>, cleaned: Items, fieldname: string, v: Value)
    requires fieldname in fields && fields[fieldname].filtermethod.Name?
    requires var m := fields[fieldname].filtermethod.name; m !in FilterMethods && m != "" && m[|m| - 1] != '_'
    requires Get(cleaned, fieldname) == Some(v)
    ensures FieldAsFilter(fields, cleaned, fieldname) == Ok(map[fieldname + "__" + fields[fieldname].filtermethod.name := v])
  {
    KeyWithLookup(fieldname, fields[fieldname].filtermethod.name);
  }

  /** Lookups given as a list raise TypeError once the field's value has been read. */
  lemma FieldAsFilterList(fields: map<string, FieldConf>, cleaned: Items, fieldname: string, v: Value)
    requires fieldname in fields && fields[fieldname].filtermethod.ListOf?
    requires Get(cleaned, fieldname) == Some(v)
    ensures FieldAsFilter(fields, cleaned, fieldname).Err?
    ensures FieldAsFilter(fields, cleaned, fieldname).error.TypeError?
  {
  }

  /** Several lookups need a cleaned value that is a list or tuple of as many values. */
  lemma FieldAsFilterArity(fields: map<string, FieldConf>, cleaned: Items, fieldname: string, lookups: seq<string>, v: Value)
    requires fieldname in fields && Resolve(fields[fieldname].filtermethod) == Ok(Several(lookups))
    requires Get(cleaned, fieldname) == Some(v)
    requires !(v.VList? || v.VTuple?) || |v.items| != |lookups|
    ensures FieldAsFilter(fields, cleaned, fieldname) == Err(AssertionError)
  {
  }

  /** Several lookups zipped with a list or tuple of as many values: each truthy
      value's key is present, and each key holds the value of the last truthy pair
      that forms it. */
  lemma FieldAsFilterZip(fields: map<string, FieldConf>, cleaned: Items, fieldname: string, lookups: seq<string>,
                         values: seq<Value>, key: string) returns (k: int)
    requires fieldname in fields && Resolve(fields[fieldname].filtermethod) == Ok(Several(lookups))
    requires Get(cleaned, fieldname) == Some(VList(values)) || Get(cleaned, fieldname) == Some(VTuple(values))
    requires |values| == |lookups|
    ensures FieldAsFilter(fields, cleaned, fieldname).Ok?
    ensures forall j :: 0 <= j < |values| && Truthy(values[j]) ==> Key(fieldname, lookups[j]) in FieldAsFilter(fields, cleaned, fieldname).value
    ensures key in FieldAsFilter(fields, cleaned, fieldname).value ==>
              ZipLast(fieldname, lookups, values, key, k) && FieldAsFilter(fields, cleaned, fieldname).value[key] == values[k]
  {
    k := 0;
    if key in ZipFilter(fieldname, lookups, values) {
      k := ZipFilterLastWins(fieldname, lookups, values, key);
    }
  }

  /** An alias yields "<field>__<first>" for a truthy first half and
      "<field>__<second>" for a truthy second half, and nothing else. */
  lemma FieldAsFilterPair(fields: map<string, FieldConf>, cleaned: Items, fieldname: string, a: Value, b: Value)
    requires fieldname in fields && fields[fieldname].filtermethod.Name?
    requires fields[fieldname].filtermethod.name in FilterMethods
    requires Get(cleaned, fieldname) == Some(VList([a, b]))
    ensures FieldAsFilter(fields, cleaned, fieldname).Ok?
    ensures var p := FieldAsFilter(fields, cleaned, fieldname).value;
            var (first, second) := FilterMethods[fields[fieldname].filtermethod.name];
            && |p| <= 2
            && p.Keys <= {fieldname + "__" + first, fieldname + "__" + second}
            && (fieldname + "__" + first in p <==> Truthy(a))
            && (fieldname + "__" + second in p <==> Truthy(b))
            && (Truthy(a) ==> p[fieldname + "__" + first] == a)
            && (Truthy(b) ==> p[fieldname + "__" + second] == b)
  {
    var (first, second) := FilterMethods[fields[fieldname].filtermethod.name];
    var lookups, values := [first, second], [a, b];
    KeyWithLookup(fieldname, first);
    KeyWithLookup(fieldname, second);
    var k1, k2 := fieldname + "__" + first, fieldname + "__" + second;
    assert first != second;
    assert k1[|fieldname| + 2..] == first;
    assert k2[|fieldname| + 2..] == second;
    assert k1 != k2;
    assert Key(fieldname, lookups[0]) == k1 && Key(fieldname, lookups[1]) == k2;
    var p := ZipFilter(fieldname, lookups, values);
    assert FieldAsFilter(fields, cleaned, fieldname) == Ok(p);
    forall key | key in p ensures key in {k1, k2} && (key == k1 ==> Truthy(a) && p[key] == a)
                                                   && (key == k2 ==> Truthy(b) && p[key] == b) {
      var k := ZipFilterLastWins(fieldname, lookups, values, key);
      assert k == 0 || k == 1;
    }
    assert p.Keys <= {k1, k2};
    assert |p| <= |{k1, k2}| by {
      CardinalitySubset(p.Keys, {k1, k2});
    }
  }

  lemma {:induction false} CardinalitySubset<T>(a: set<T>, b: set<T>)
    requires a <= b
    ensures |a| <= |b|
  {
    if a != {} {
      var x :| x in a;
      CardinalitySubset(a - {x}, b - {x});
    }
  }

  // ---------------------------------------------------------------------------
  // The whole form: get_filter_dict

  /** `get_filter_dict` succeeds when every truthy item's field builds. */
  lemma {:induction false} FilterDictOk(fields: map<string, FieldConf>, cleaned: Items, items: Items)
    requires forall i :: 0 <= i < |items| && Truthy(items[i].1) ==> FieldAsFilter(fields, cleaned, items[i].0).Ok?
    ensures FilterDict(fields, cleaned, items).Ok?
    decreases |items|
  {
    if items != [] {
      var pre := items[..|items| - 1];
      forall i | 0 <= i < |pre| && Truthy(pre[i].1) ensures FieldAsFilter(fields, cleaned, pre[i].0).Ok? {
        assert pre[i] == items[i];
      }
      FilterDictOk(fields, cleaned, pre);
    }
  }

  /** When `get_filter_dict` raises, it raises the error of the FIRST truthy item
      whose field does not build. */
  lemma {:induction false} FilterDictFirstError(fields: map<string, FieldConf>, cleaned: Items, items: Items)
    returns (i: nat)
    requires FilterDict(fields, cleaned, items).Err?
    ensures i < |items| && Truthy(items[i].1) && FieldAsFilter(fields, cleaned, items[i].0).Err?
    ensures forall j :: 0 <= j < i && Truthy(items[j].1) ==> FieldAsFilter(fields, cleaned, items[j].0).Ok?
    ensures FilterDict(fields, cleaned, items).error == FieldAsFilter(fields, cleaned, items[i].0).error
    decreases |items|
  {
    var n := |items|;
    var pre := items[..n - 1];
    if FilterDict(fields, cleaned, pre).Err? {
      i := FilterDictFirstError(fields, cleaned, pre);
      assert items[i] == pre[i];
      forall j | 0 <= j < i && Truthy(items[j].1) ensures FieldAsFilter(fields, cleaned, items[j].0).Ok? {
        assert items[j] == pre[j];
      }
    } else {
      i := n - 1;
      forall j | 0 <= j < i && Truthy(items[j].1) ensures FieldAsFilter(fields, cleaned, items[j].0).Ok? {
        assert items[j] == pre[j];
        FilterDictComplete(fields, cleaned, pre, j);
      }
    }
  }

  /** Once a prefix of the items raises, the whole dict raises the same error. */
  lemma {:induction false} FilterDictErrSticky(fields: map<string, FieldConf>, cleaned: Items, items: Items, n: nat)
    requires n <= |items|
    requires FilterDict(fields, cleaned, items[..n]).Err?
    ensures FilterDict(fields, cleaned, items) == FilterDict(fields, cleaned, items[..n])
    decreases |items|
  {
    if n < |items| {
      var pre := items[..|items| - 1];
      assert pre[..n] == items[..n];
      FilterDictErrSticky(fields, cleaned, pre, n);
    } else {
      assert items[..n] == items;
    }
  }

  /** Items whose values are all falsy give the empty dict. */
  lemma {:induction false} FilterDictAllEmpty(fields: map<string, FieldConf>, cleaned: Items, items: Items)
    requires forall i :: 0 <= i < |items| ==> !Truthy(items[i].1)
    ensures FilterDict(fields, cleaned, items) == Ok(map[])
    decreases |items|
  {
    if items != [] {
      FilterDictAllEmpty(fields, cleaned, items[..|items| - 1]);
    }
  }

  /** Every truthy item is visited without error and all of its keys reach the result. */
  lemma {:induction false} FilterDictComplete(fields: map<string, FieldConf>, cleaned: Items, items: Items, i: nat)
    requires FilterDict(fields, cleaned, items).Ok?
    requires i < |items| && Truthy(items[i].1)
    ensures FieldAsFilter(fields, cleaned, items[i].0).Ok?
    ensures PartOf(fields, cleaned, items[i].0).Keys <= FilterDict(fields, cleaned, items).value.Keys
    decreases |items|
  {
    var pre := items[..|items| - 1];
    if i < |items| - 1 {
      assert pre[i] == items[i];
      FilterDictComplete(fields, cleaned, pre, i);
    }
  }

  /** Item `i` writes key `k` and no later truthy item writes it again. */
  ghost predicate WrittenLastBy(fields: map<string, FieldConf>, cleaned: Items, items: Items, k: string, i: int)
  {
    && 0 <= i < |items| && Truthy(items[i].1)
    && k in PartOf(fields, cleaned, items[i].0)
    && forall j :: i < j < |items| && Truthy(items[j].1) ==> k !in PartOf(fields, cleaned, items[j].0)
  }

  /** Each key of the result comes from a truthy item, and holds the value of the
      LAST truthy item that produces it: later fields overwrite earlier ones. */
  lemma {:induction false} FilterDictLastWins(fields: map<string, FieldConf>, cleaned: Items, items: Items, k: string)
    returns (i: int)
    requires FilterDict(fields, cleaned, items).Ok?
    requires k in FilterDict(fields, cleaned, items).value
    ensures WrittenLastBy(fields, cleaned, items, k, i)
    ensures FilterDict(fields, cleaned, items).value[k] == PartOf(fields, cleaned, items[i].0)[k]
    decreases |items|
  {
    var n := |items|;
    var pre := items[..n - 1];
    var (name, v) := items[n - 1];
    if Truthy(v) && k in PartOf(fields, cleaned, name) {
      i := n - 1;
    } else {
      i := FilterDictLastWins(fields, cleaned, pre, k);
      assert items[i] == pre[i];
      forall j | i < j < n && Truthy(items[j].1)
        ensures k !in PartOf(fields, cleaned, items[j].0)
      {
        if j < n - 1 {
          assert items[j] == pre[j];
        }
      }
    }
  }

  /** The caller's values only decide which fields are visited: two item lists with
      the same names and the same truthiness give the same dict. */
  lemma {:induction false} FilterDictIgnoresArgumentValues(fields: map<string, FieldConf>, cleaned: Items, items: Items, other: Items)
    requires |items| == |other|
    requires forall i :: 0 <= i < |items| ==> items[i].0 == other[i].0 && Truthy(items[i].1) == Truthy(other[i].1)
    ensures FilterDict(fields, cleaned, items) == FilterDict(fields, cleaned, other)
    decreases |items|
  {
    if items != [] {
      var n := |items|;
      FilterDictIgnoresArgumentValues(fields, cleaned, items[..n - 1], other[..n - 1]);
      assert items[n - 1].0 == other[n - 1].0;
    }
  }

  /** A field built from a truthy value stores only truthy values. */
  lemma FieldAsFilterTruthy(fields: map<string, FieldConf>, cleaned: Items, fieldname: string, v: Value)
    requires Get(cleaned, fieldname) == Some(v) && Truthy(v)
    requires FieldAsFilter(fields, cleaned, fieldname).Ok?
    ensures forall k :: k in FieldAsFilter(fields, cleaned, fieldname).value ==> Truthy(FieldAsFilter(fields, cleaned, fieldname).value[k])
  {
    var p := FieldAsFilter(fields, cleaned, fieldname).value;
    var r := Resolve(fields[fieldname].filtermethod);
    if r.value.Several? {
      forall key | key in p ensures Truthy(p[key]) {
        var k := ZipFilterLastWins(fieldname, r.value.lookups, v.items, key);
      }
    }
  }

  /** When every visited item agrees with the form's own cleaned data, no value in
      the result is blank. */
  lemma {:induction false} FilterDictNoBlankValues(fields: map<string, FieldConf>, cleaned: Items, items: Items)
    requires forall i :: 0 <= i < |items| ==> Get(cleaned, items[i].0) == Some(items[i].1)
    requires FilterDict(fields, cleaned, items).Ok?
    ensures forall k :: k in FilterDict(fields, cleaned, items).value ==> Truthy(FilterDict(fields, cleaned, items).value[k])
    decreases |items|
  {
    if items != [] {
      var n := |items|;
      var pre := items[..n - 1];
      forall i | 0 <= i < |pre| ensures Get(cleaned, pre[i].0) == Some(pre[i].1) {
        assert pre[i] == items[i];
      }
      FilterDictNoBlankValues(fields, cleaned, pre);
      var (name, v) := items[n - 1];
      if Truthy(v) {
        FieldAsFilterTruthy(fields, cleaned, name, v);
      }
    }
  }

  /** The form's own cleaned data (a dict, so its keys are distinct) never yields
      a blank value. */
  lemma OwnDataNoBlankValues(fields: map<string, FieldConf>, cleaned: Items)
    requires DistinctKeys(cleaned)
    requires FilterDict(fields, cleaned, cleaned).Ok?
    ensures forall k :: k in FilterDict(fields, cleaned, cleaned).value ==> Truthy(FilterDict(fields, cleaned, cleaned).value[k])
  {
    forall i | 0 <= i < |cleaned| ensures Get(cleaned, cleaned[i].0) == Some(cleaned[i].1) {
      GetDistinct(cleaned, i);
    }
    FilterDictNoBlankValues(fields, cleaned, cleaned);
  }

  // ---------------------------------------------------------------------------
  // Worked examples

  /** `pages` with `min_max` and [10, 20] gives {pages__gte: 10, pages__lte: 20}. */
  lemma PagesMinMaxExample()
    ensures var fields := map["pages" := FieldConf(Some("Number of Pages"), Name("min_max"))];
            var cleaned := [("pages", VList([VInt(10), VInt(20)]))];
            FilterDict(fields, cleaned, cleaned)
              == Ok(map["pages__gte" := VInt(10), "pages__lte" := VInt(20)])
  {
    PairExample("pages", "min_max", "pages__gte", "pages__lte", VInt(10), VInt(20));
  }

  /** The docstring's example of `_field_as_filter`: `size` with `inner_range` and
      [10, 20] gives {size__gt: 10, size__lt: 20}. */
  lemma SizeInnerRangeExample()
    ensures var fields := map["size" := FieldConf(None, Name("inner_range"))];
            var cleaned := [("size", VList([VInt(10), VInt(20)]))];
            FilterDict(fields, cleaned, cleaned)
              == Ok(map["size__gt" := VInt(10), "size__lt" := VInt(20)])
  {
    PairExample("size", "inner_range", "size__gt", "size__lt", VInt(10), VInt(20));
  }

  /** A one-field form whose alias is given two truthy bounds filters by both. */
  lemma PairExample(field: string, alias: string, k1: string, k2: string, lo: Value, hi: Value)
    requires alias in FilterMethods && Truthy(lo) && Truthy(hi)
    requires k1 == field + "__" + FilterMethods[alias].0 && k2 == field + "__" + FilterMethods[alias].1
    ensures var fields := map[field := FieldConf(None, Name(alias))];
            var cleaned := [(field, VList([lo, hi]))];
            FilterDict(fields, cleaned, cleaned) == Ok(map[k1 := lo, k2 := hi])
  {
    var fields := map[field := FieldConf(None, Name(alias))];
    var cleaned := [(field, VList([lo, hi]))];
    assert Get(cleaned, field) == Some(VList([lo, hi]));
    FieldAsFilterPair(fields, cleaned, field, lo, hi);
    var part := FieldAsFilter(fields, cleaned, field).value;
    assert part == map[k1 := lo, k2 := hi];
    assert cleaned[..0] == [];
    assert FilterDict(fields, cleaned, cleaned[..0]) == Ok(map[]);
    assert FilterDict(fields, cleaned, cleaned) == Ok(map[] + part);
    assert map[] + part == part;
  }

  /** Lookups given as a tuple make a half-open interval: ("gte", "lt") with
      [1, 5] gives {size__gte: 1, size__lt: 5}. */
  lemma HalfOpenTupleExample()
    ensures var fields := map["size" := FieldConf(None, TupleOf(["gte", "lt"]))];
            var cleaned := [("size", VList([VInt(1), VInt(5)]))];
            FilterDict(fields, cleaned, cleaned) == Ok(map["size__gte" := VInt(1), "size__lt" := VInt(5)])
  {
    var fields := map["size" := FieldConf(None, TupleOf(["gte", "lt"]))];
    var cleaned := [("size", VList([VInt(1), VInt(5)]))];
    var lookups, values := ["gte", "lt"], [VInt(1), VInt(5)];
    KeyWithLookup("size", "gte");
    KeyWithLookup("size", "lt");
    assert "size" + "__" + "gte" == "size__gte";
    assert "size" + "__" + "lt" == "size__lt";
    assert Get(cleaned, "size") == Some(VList(values));
    assert values[..1] == [VInt(1)] && lookups[..1] == ["gte"];
    assert [VInt(1)][..0] == [] && ["gte"][..0] == [];
    assert ZipFilter("size", ["gte"], [VInt(1)]) == map["size__gte" := VInt(1)];
    var part := map["size__gte" := VInt(1), "size__lt" := VInt(5)];
    assert ZipFilter("size", lookups, values) == part;
    assert FieldAsFilter(fields, cleaned, "size") == Ok(part);
    assert cleaned[..0] == [];
    assert FilterDict(fields, cleaned, cleaned[..0]) == Ok(map[]);
    assert FilterDict(fields, cleaned, cleaned) == Ok(map[] + part);
    assert map[] + part == part;
  }

  /** A pair of blank halves contributes nothing, although the list itself is truthy. */
  lemma BlankPairExample(filtermethod: string)
    requires filtermethod in FilterMethods
    ensures var fields := map["size" := FieldConf(None, Name(filtermethod))];
            var cleaned := [("size", VList([VStr(""), VStr("")]))];
            FilterDict(fields, cleaned, cleaned) == Ok(map[])
  {
    var fields := map["size" := FieldConf(None, Name(filtermethod))];
    var cleaned := [("size", VList([VStr(""), VStr("")]))];
    assert cleaned[..0] == [];
    assert Get(cleaned, "size") == Some(VList([VStr(""), VStr("")]));
    FieldAsFilterPair(fields, cleaned, "size", VStr(""), VStr(""));
  }

  /** `author` with `icontains` gives {author__icontains: "abercrombie"}. */
  lemma AuthorIcontainsExample()
    ensures var fields := map["author" := FieldConf(Some("Author"), Name("icontains"))];
            var cleaned := [("author", VStr("abercrombie"))];
            FilterDict(fields, cleaned, cleaned) == Ok(map["author__icontains" := VStr("abercrombie")])
  {
    var fields := map["author" := FieldConf(Some("Author"), Name("icontains"))];
    var cleaned := [("author", VStr("abercrombie"))];
    KeyWithLookup("author", "icontains");
    assert "author" + "__" + "icontains" == "author__icontains";
    assert cleaned[..0] == [];
    assert Get(cleaned, "author") == Some(VStr("abercrombie"));
    assert Resolve(Name("icontains")) == Ok(Single("icontains"));
    var part := map["author__icontains" := VStr("abercrombie")];
    assert FieldAsFilter(fields, cleaned, "author") == Ok(part);
    assert FilterDict(fields, cleaned, cleaned[..0]) == Ok(map[]);
    assert FilterDict(fields, cleaned, cleaned) == Ok(map[] + part);
    assert map[] + part == part;
  }

  /** The caller's value decides only that `title` is visited: the form's own blank
      value is what ends up in the dict, under the bare key "title". */
  lemma CallerValueIgnoredExample()
    ensures var fields := map["title" := FieldConf(None, Name(""))];
            FilterDict(fields, [("title", VStr(""))], [("title", VStr("Dune"))])
              == Ok(map["title" := VStr("")])
  {
    var fields := map["title" := FieldConf(None, Name(""))];
    var cleaned := [("title", VStr(""))];
    var items := [("title", VStr("Dune"))];
    KeyExactMatch("title");
    assert items[..0] == [];
    assert Get(cleaned, "title") == Some(VStr(""));
    assert Resolve(Name("")) == Ok(Single(""));
    var part := map["title" := VStr("")];
    assert FieldAsFilter(fields, cleaned, "title") == Ok(part);
    assert FilterDict(fields, cleaned, items[..0]) == Ok(map[]);
    assert FilterDict(fields, cleaned, items) == Ok(map[] + part);
    assert map[] + part == part;
  }
}
