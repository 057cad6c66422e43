/** A filter form: the field descriptors it is configured with, the field table
    its constructor builds from them, and the form object with its three
    operations, building the filter dict, filtering a query and summarising the
    search. */
module FilterForms {
  import opened Python
  import opened Filters
  import opened Summaries

  /** A FieldDescription: label, target field, Django field type, filter method,
      extra field arguments, widget name and widget attributes. */
  datatype Descriptor = Descriptor(
    labelText: string,
    field: string,
    fieldtype: string,
    filtermethod: Method,
    args: map<string, Value>,
    widget: Option<string>,
    widgetAttrs: map<string, string>)

  /** `create_field`: a descriptor whose omitted parts take their defaults. */
  function CreateField(labelText: string, field: string, fieldtype: string, filtermethod: Method := Name(""),
                       args: Option<map<string, Value>> := None, widget: Option<string> := None,
                       widgetAttrs: Option<map<string, string>> := None): Descriptor
  {
    Descriptor(labelText, field, fieldtype, filtermethod,
               match args case Some(a) => a case None => map[],
               widget,
               match widgetAttrs case Some(w) => w case None => map[])
  }

  /** What the constructor keeps of a descriptor: a non-empty label overrides any
      `label` argument, and the filter method is copied as it is. */
  function ConfOf(d: Descriptor): FieldConf
  {
    var fromArgs := if "label" in d.args && d.args["label"].VStr? then Some(d.args["label"].s) else None;
    FieldConf(if d.labelText != "" then Some(d.labelText) else fromArgs, d.filtermethod)
  }

  /** The form's fields: their names in form order and what each one keeps. */
  datatype Table = Table(order: seq<string>, confs: map<string, FieldConf>)

  /** The fields the constructor inserts, one descriptor after the other: a name
      seen before keeps its place and takes the later descriptor's settings. */
  function FieldTable(descriptors: seq<Descriptor>): Table
    decreases |descriptors|
  {
    if descriptors == [] then Table([], map[])
    else
      var t := FieldTable(descriptors[..|descriptors| - 1]);
      var d := descriptors[|descriptors| - 1];
      Table(if d.field in t.confs then t.order else t.order + [d.field], t.confs[d.field := ConfOf(d)])
  }

  /** The query a form filters, as far as the form can see it: a base query and
      the filter calls applied to it. */
  datatype QuerySet = Query(name: string) | Filtered(base: QuerySet, kwargs: map<string, Value>)

  /** What `__unicode__` returns: Django's default rendering of the form, or the summary text. */
  datatype Rendering = DefaultRepr | Text(text: string)

  /** The two objects that `super()` is handed in `__unicode__`. */
  datatype PyObject = FormClass | FormInstance

  /** `super(start, obj).__unicode__()`: Python needs the class first and an
      instance of it second; then Django's own `Form.__unicode__` renders the form. */
  function SuperUnicode(start: PyObject, obj: PyObject): Result<Rendering>
  {
    if !start.FormClass? then Err(TypeError("super() argument 1 must be type"))
    else if !obj.FormInstance? then Err(TypeError("unbound method __unicode__ must be called with an instance"))
    else Ok(DefaultRepr)
  }

  const NotValidated := "You should handle form validation before calling filter()"

  /** A bound filter form: its fields, the values it cleaned and whether it is valid. */
  class FilterForm {
    var fieldOrder: seq<string>
    var fields: map<string, FieldConf>
    var cleanedData: Items
    var valid: bool

    /** Insert one field per descriptor, in order. */
    constructor (descriptors: seq<Descriptor>, cleanedData: Items, valid: bool)
      ensures Table(fieldOrder, fields) == FieldTable(descriptors)
      ensures this.cleanedData == cleanedData && this.valid == valid
    {
      this.cleanedData := cleanedData;
      this.valid := valid;
      fieldOrder := [];
      fields := map[];
      new;
      for i := 0 to |descriptors|
        invariant Table(fieldOrder, fields) == FieldTable(descriptors[..i])
        invariant this.cleanedData == cleanedData && this.valid == valid
      {
        var d := descriptors[i];
        assert descriptors[..i + 1][..i] == descriptors[..i];
        if d.field !in fields {
          fieldOrder := fieldOrder + [d.field];
        }
        fields := fields[d.field := ConfOf(d)];
      }
      assert descriptors[..|descriptors|] == descriptors;
    }

    /** `get_filter_dict`: the dict to pass as keyword arguments to `filter`. */
    method GetFilterDict(items: Items) returns (r: Result<map<string, Value>>)
      ensures r == FilterDict(fields, cleanedData, items)
    {
      var filters: map<string, Value> := map[];
      for i := 0 to |items|
        invariant FilterDict(fields, cleanedData, items[..i]) == Ok(filters)
      {
        var (fieldname, values) := items[i];
        assert items[..i + 1][..i] == items[..i];
        if Truthy(values) {
          var part := FieldAsFilter(fields, cleanedData, fieldname);
          if part.Err? {
            FilterDictErrSticky(fields, cleanedData, items, i + 1);
            return Err(part.error);
          }
          filters := filters + part.value;
        }
      }
      assert items[..|items|] == items;
      return Ok(filters);
    }

    /** `filter(query, cleaned_data)`: the empty `cleanedArg` stands for both None
        and {}. Without data of its own the form must be valid; otherwise the dict
        is built from the given data (or the form's) and handed to `query.filter`
        once, whose result is returned as it is. */
    method Filter(query: QuerySet, cleanedArg: Items) returns (r: Result<QuerySet>)
      ensures cleanedArg == [] && !valid ==> r == Err(RuntimeError(NotValidated))
      ensures cleanedArg != [] || valid ==>
                var d := FilterDict(fields, cleanedData, if cleanedArg != [] then cleanedArg else cleanedData);
                r == if d.Ok? then Ok(Filtered(query, d.value)) else Err(d.error)
    {
      if cleanedArg == [] && !valid {
        return Err(RuntimeError(NotValidated));
      }
      var items := if cleanedArg != [] then cleanedArg else cleanedData;
      var filterdict := GetFilterDict(items);
      if filterdict.Err? {
        return Err(filterdict.error);
      }
      return Ok(Filtered(query, filterdict.value));
    }

    /** `__unicode__`: an invalid form gets Django's default rendering; a valid one
        gets one line per field that has a filter, in form order. Which of two keys
        naming the same field gives its line is not fixed (dict order), so the
        entries used are returned as a ghost result. A key whose field name is not
        a form field raises KeyError. */
    method Summary(prettyName: string -> string) returns (r: Result<Rendering>, ghost entries: map<string, string>)
      ensures !valid ==> r == Ok(DefaultRepr)
      ensures valid && FilterDict(fields, cleanedData, cleanedData).Err? ==>
                r == Err(FilterDict(fields, cleanedData, cleanedData).error)
      ensures valid && FilterDict(fields, cleanedData, cleanedData).Ok? ==>
                var filters := FilterDict(fields, cleanedData, cleanedData).value;
                && (r.Err? <==> exists k :: k in filters && SplitKey(k).0 !in fields)
                && (r.Err? ==> exists k :: k in filters && SplitKey(k).0 !in fields && r.error == KeyError(SplitKey(k).0))
                && (r.Ok? ==> IsEntries(fields, prettyName, filters, entries) && r.value == Text(JoinLines(fieldOrder, entries)))
    {
      entries := map[];
      if !valid {
        r := SuperUnicode(FormClass, FormInstance);
        return;
      }
      var built := GetFilterDict(cleanedData);
      if built.Err? {
        r := Err(built.error);
        return;
      }
      var filters := built.value;
      var rest := filters.Keys;
      var lines: map<string, string> := map[];
      while rest != {}
        invariant rest <= filters.Keys
        invariant lines.Keys == (set k | k in filters && k !in rest :: SplitKey(k).0)
        invariant forall k :: k in filters && k !in rest ==> SplitKey(k).0 in fields
        invariant forall name :: name in lines ==>
                    name in fields
                    && exists k :: k in filters && k !in rest && SplitKey(k).0 == name
                                   && lines[name] == LineFor(fields, prettyName, filters, k)
        decreases rest
      {
        var key :| key in rest;
        var fieldname, operator := MatchOperator(key);
        if fieldname !in fields {
          r := Err(KeyError(fieldname));
          return;
        }
        var line := FormatEntry(LabelOf(fields[fieldname], fieldname, prettyName), operator, filters[key]);
        assert line == LineFor(fields, prettyName, filters, key);
        lines := lines[fieldname := line];
        rest := rest - {key};
      }
      entries := lines;
      r := Ok(Text(JoinLines(fieldOrder, lines)));
    }
  }

  // ---------------------------------------------------------------------------
  // The field table

  /** Some descriptor names field `f`. */
  ghost predicate Declares(descriptors: seq<Descriptor>, f: string)
  {
    exists i :: 0 <= i < |descriptors| && descriptors[i].field == f
  }

  /** Every descriptor's field becomes a form field, listed once. */
  lemma {:induction false} FieldTableShape(descriptors: seq<Descriptor>)
    ensures var t := FieldTable(descriptors);
            && NoRepeats(t.order)
            && (forall f :: f in t.confs <==> f in t.order)
            && (forall f :: f in t.confs <==> Declares(descriptors, f))
    decreases |descriptors|
  {
    if descriptors != [] {
      var n := |descriptors|;
      var pre := descriptors[..n - 1];
      FieldTableShape(pre);
      forall f ensures Declares(descriptors, f) <==> (f == descriptors[n - 1].field || Declares(pre, f)) {
        if Declares(descriptors, f) {
          var i :| 0 <= i < n && descriptors[i].field == f;
          if i < n - 1 {
            assert pre[i].field == f;
          }
        }
        if Declares(pre, f) {
          var i :| 0 <= i < n - 1 && pre[i].field == f;
          assert descriptors[i].field == f;
        }
      }
    }
  }

  /** Each field keeps the settings of the LAST descriptor that names it. */
  lemma {:induction false} FieldTableLastWins(descriptors: seq<Descriptor>, f: string) returns (i: nat)
    requires f in FieldTable(descriptors).confs
    ensures i < |descriptors| && descriptors[i].field == f
    ensures FieldTable(descriptors).confs[f] == ConfOf(descriptors[i])
    ensures forall j :: i < j < |descriptors| ==> descriptors[j].field != f
    decreases |descriptors|
  {
    var n := |descriptors|;
    var pre := descriptors[..n - 1];
    if descriptors[n - 1].field == f {
      i := n - 1;
    } else {
      i := FieldTableLastWins(pre, f);
      assert descriptors[i] == pre[i];
      forall j | i < j < n ensures descriptors[j].field != f {
        if j < n - 1 {
          assert descriptors[j] == pre[j];
        }
      }
    }
  }

  /** Fields are listed in the order in which their names FIRST appear among the
      descriptors: `pos[a]` is where `order[a]` first appears, and these positions
      increase. */
  lemma {:induction false} FieldTableOrder(descriptors: seq<Descriptor>) returns (pos: seq<nat>)
    ensures var order := FieldTable(descriptors).order;
            && |pos| == |order|
            && (forall a :: 0 <= a < |pos| ==>
                  pos[a] < |descriptors| && descriptors[pos[a]].field == order[a]
                  && forall j :: 0 <= j < pos[a] ==> descriptors[j].field != order[a])
            && (forall a, b :: 0 <= a < b < |pos| ==> pos[a] < pos[b])
    decreases |descriptors|
  {
    if descriptors == [] {
      pos := [];
    } else {
      var n := |descriptors|;
      var pre := descriptors[..n - 1];
      var d := descriptors[n - 1];
      var prePos := FieldTableOrder(pre);
      FieldTableShape(pre);
      var t := FieldTable(pre);
      forall a | 0 <= a < |prePos|
        ensures prePos[a] < n - 1 && descriptors[prePos[a]].field == t.order[a]
        ensures forall j :: 0 <= j < prePos[a] ==> descriptors[j].field != t.order[a]
      {
        assert descriptors[prePos[a]] == pre[prePos[a]];
        forall j | 0 <= j < prePos[a] ensures descriptors[j].field != t.order[a] {
          assert descriptors[j] == pre[j];
        }
      }
      if d.field in t.confs {
        pos := prePos;
      } else {
        pos := prePos + [n - 1];
        forall j | 0 <= j < n - 1 ensures descriptors[j].field != d.field {
          assert descriptors[j] == pre[j];
        }
      }
    }
  }

  // ---------------------------------------------------------------------------
  // End to end

  /** A descriptor made by `create_field` with its defaults filters by exact match:
      in a form of that one field, a truthy value `v` gives the dict {field: v}. */
  lemma DefaultFieldExactMatch(labelText: string, field: string, fieldtype: string, v: Value)
    requires field == [] || field[|field| - 1] != '_'
    requires Truthy(v)
    ensures var t := FieldTable([CreateField(labelText, field, fieldtype)]);
            FilterDict(t.confs, [(field, v)], [(field, v)]) == Ok(map[field := v])
  {
    var d := CreateField(labelText, field, fieldtype);
    assert d.field == field && d.filtermethod == Name("");
    assert [d][..0] == [];
    assert FieldTable([d][..0]) == Table([], map[]);
    var t := FieldTable([d]);
    assert t.confs == map[field := ConfOf(d)];
    KeyExactMatch(field);
    var items := [(field, v)];
    assert items[..0] == [];
    assert Get(items, field) == Some(v);
    assert Resolve(Name("")) == Ok(Single(""));
    assert FieldAsFilter(t.confs, items, field) == Ok(map[field := v]);
    assert FilterDict(t.confs, items, items[..0]) == Ok(map[]);
    assert FilterDict(t.confs, items, items) == Ok(map[] + map[field := v]);
    assert map[] + map[field := v] == map[field := v];
  }

  /** A form whose cleaned values are all blank filters nothing and, if valid,
      summarises to the empty string. */
  lemma EmptyFormSummary(fields: map<string, FieldConf>, cleaned: Items, order: seq<string>,
                         prettyName: string -> string, entries: map<string, string>)
    requires forall i :: 0 <= i < |cleaned| ==> !Truthy(cleaned[i].1)
    requires IsEntries(fields, prettyName, map[], entries)
    ensures FilterDict(fields, cleaned, cleaned) == Ok(map[])
    ensures JoinLines(order, entries) == ""
  {
    FilterDictAllEmpty(fields, cleaned, cleaned);
    var none: map<string, Value> := map[];
    assert (set k | k in none :: SplitKey(k).0) == {};
    assert entries == map[];
    PresentEmpty(order);
  }

  lemma {:induction false} PresentEmpty(order: seq<string>)
    ensures Present(order, map[]) == []
  {
    if order != [] {
      PresentEmpty(order[1..]);
    }
  }

  /** A filled field whose lookup is outside the operator table, such as
      `icontains`, gives a key that `__unicode__` reads back whole, and that whole
      key is no form field: by the contract of `Summary` a valid form with such a
      field raises KeyError instead of summarising. */
  lemma IcontainsSummaryRaises(field: string, caption: Option<string>, v: Value)
    requires Truthy(v)
    ensures var fields := map[field := FieldConf(caption, Name("icontains"))];
            var cleaned := [(field, v)];
            && FilterDict(fields, cleaned, cleaned) == Ok(map[field + "__icontains" := v])
            && SplitKey(field + "__icontains").0 !in fields
  {
    var fields := map[field := FieldConf(caption, Name("icontains"))];
    var cleaned := [(field, v)];
    var key := field + "__icontains";
    KeyWithLookup(field, "icontains");
    assert field + "__" + "icontains" == key;
    assert Get(cleaned, field) == Some(v);
    var part := map[key := v];
    assert FieldAsFilter(fields, cleaned, field) == Ok(part);
    assert cleaned[..0] == [];
    assert FilterDict(fields, cleaned, cleaned[..0]) == Ok(map[]);
    assert FilterDict(fields, cleaned, cleaned) == Ok(map[] + part);
    assert map[] + part == part;
    SplitKeyUnlisted(field);
    assert |key| != |field|;
  }

  /** Both bounds of a `min_max` field name the same field, so its summary shows
      ONE line for it, with one of the two bounds only. */
  lemma MinMaxSummaryShowsOneBound(fields: map<string, FieldConf>, prettyName: string -> string, field: string,
                                   lo: Value, hi: Value, entries: map<string, string>)
    requires forall i :: 0 <= i < |field| ==> !IsAt(field + "__gte", "__gte", i)
    requires forall i :: 0 <= i < |field| ==> !IsAt(field + "__lte", "__lte", i)
    requires field in fields
    requires IsEntries(fields, prettyName, map[field + "__gte" := lo, field + "__lte" := hi], entries)
    ensures entries.Keys == {field}
    ensures var caption := LabelOf(fields[field], field, prettyName);
            entries[field] == FormatEntry(caption, ">=", lo) || entries[field] == FormatEntry(caption, "<=", hi)
  {
    var k1, k2 := field + "__gte", field + "__lte";
    BoundKeysSplit(field);
    TwoKeysOneField(k1, k2, lo, hi, field);
    OneFieldEntry(fields, prettyName, k1, k2, lo, hi, field, ">=", "<=", entries);
  }

  /** Two keys that name the same field give one field name. */
  lemma TwoKeysOneField(k1: string, k2: string, v1: Value, v2: Value, field: string)
    requires SplitKey(k1).0 == field && SplitKey(k2).0 == field
    ensures (set k | k in map[k1 := v1, k2 := v2] :: SplitKey(k).0) == {field}
  {
    var filters := map[k1 := v1, k2 := v2];
    assert filters.Keys == {k1, k2};
    assert field in (set k | k in filters :: SplitKey(k).0) by {
      assert k1 in filters;
    }
  }

  /** The one entry for a field named by two keys is the line of either key. */
  lemma OneFieldEntry(fields: map<string, FieldConf>, prettyName: string -> string, k1: string, k2: string,
                      v1: Value, v2: Value, field: string, op1: string, op2: string, entries: map<string, string>)
    requires k1 != k2 && field in fields
    requires SplitKey(k1) == (field, op1) && SplitKey(k2) == (field, op2)
    requires (set k | k in map[k1 := v1, k2 := v2] :: SplitKey(k).0) == {field}
    requires IsEntries(fields, prettyName, map[k1 := v1, k2 := v2], entries)
    ensures entries.Keys == {field}
    ensures var caption := LabelOf(fields[field], field, prettyName);
            entries[field] == FormatEntry(caption, op1, v1) || entries[field] == FormatEntry(caption, op2, v2)
  {
    var filters := map[k1 := v1, k2 := v2];
    assert field in entries;
    var k :| k in filters && SplitKey(k).0 == field && entries[field] == LineFor(fields, prettyName, filters, k);
    assert k == k1 || k == k2;
  }

  /** The two keys of a `min_max` field both split back to that field. */
  lemma BoundKeysSplit(field: string)
    requires forall i :: 0 <= i < |field| ==> !IsAt(field + "__gte", "__gte", i)
    requires forall i :: 0 <= i < |field| ==> !IsAt(field + "__lte", "__lte", i)
    ensures field + "__gte" != field + "__lte"
    ensures SplitKey(field + "__gte") == (field, ">=")
    ensures SplitKey(field + "__lte") == (field, "<=")
  {
    var k1, k2 := field + "__gte", field + "__lte";
    assert k1[|k1| - 3] == 'g' && k2[|k2| - 3] == 'l';
    assert Operators[1].0 == "__gte" && Operators[1].1 == ">=";
    assert Operators[3].0 == "__lte" && Operators[3].1 == "<=";
    SplitKeyOfKey(field, 1);
    SplitKeyOfKey(field, 3);
  }

  // ---------------------------------------------------------------------------
  // The fallback for an invalid form

  /** As written, `__unicode__` calls `super(self, _FilterForm)`: the instance in
      the place of the class, which Python rejects with TypeError. */
  lemma SuperAsWrittenFails()
    ensures SuperUnicode(FormInstance, FormClass).Err?
    ensures SuperUnicode(FormInstance, FormClass).error.TypeError?
  {
  }
}
