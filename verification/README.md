# filter_forms: a Dafny model of the filter form

`filter_forms` builds a Django form class from a list of field descriptions.
Each description names a target model field and a filter method. Once the form
is bound and valid, `filter(queryset)` turns the cleaned values into a dict of
keyword predicates (`pages__gte`, `author__icontains`, ...). It then hands that
dict to `queryset.filter(**...)`. `unicode(form)` writes a human-readable
summary of the search, one line per filtered field.

The model covers these parts of `filter_forms/forms.py`:

- **`python.dfy`** (module `Python`) holds the Python 2 behaviour the form relies on:
  - cleaned values and their truthiness;
  - dict lookup with KeyError;
  - `rstrip('_')`, `endswith`, `partition`, `join` and `str()`.
- **`filters.dfy`** (module `Filters`) holds the predicate builder:
  - the `FILTERMETHODS` alias table;
  - how a key is formed from a field name and a lookup;
  - `_field_as_filter`;
  - the left-to-right merge of `get_filter_dict`.
- **`summaries.dfy`** (module `Summaries`) holds the pieces of `__unicode__`:
  - the operator table;
  - the inner loop that splits a key back into a field name and an operator word;
  - the line format;
  - the ordering of lines by form field.
- **`forms.dfy`** (module `FilterForms`) holds the rest:
  - `create_field`;
  - the field table that `__init__` builds;
  - the form object as a class with four members: a constructor, `GetFilterDict`, `Filter` and `Summary`.

Four modelling choices apply throughout:

- **Dicts.** A Python dict whose iteration order matters is a sequence of
  `(name, value)` items in iteration order. This covers `cleaned_data` and the
  argument of `get_filter_dict`. The filter dict itself is a `map`.
- **Iteration order in `Summary`.** Python 2 does not fix the order in which
  `__unicode__` visits the filter dict. `Summary` therefore picks keys
  nondeterministically. Two keys can name the same field. In that case which
  key's line is kept is left open, and the ghost result `entries` records the
  lines actually used.
- **Errors.** Python exceptions are values of `Result`: `KeyError`,
  `AssertionError`, `RuntimeError` and `TypeError`.
- **Filter methods.** A descriptor's filter method is a name, a tuple of
  lookups or a list of lookups (`Filters.Method`). Only `min_max` and
  `inner_range` are aliases, because those are the only keys of
  `FILTERMETHODS`.
  - The usage example in the module docstring passes `filtermethod='minmax'`
    (line 26) and `filtermethod='range'` (line 29). Neither is a key of
    `FILTERMETHODS`, so both are single lookups (`Filters.ResolveAliases`).
  - A tuple is not a key either, so it is used as it is and zipped with a value
    list or tuple of the same length.
  - A list cannot be hashed, so `FILTERMETHODS.get` raises TypeError for it.

Other behaviours of the code that the model follows:

- **`_field_as_filter` ignores its `values` argument.** It re-reads the value
  from the form's own `cleaned_data`. The data passed to `filter(query, data)`
  therefore only decides which fields are visited and whether they are visited
  at all (`Filters.FilterDictIgnoresArgumentValues`,
  `Filters.CallerValueIgnoredExample`).
- **Colliding keys.** Keys that several fields produce are overwritten in item
  order (`Filters.FilterDictLastWins`).
- **Summaries of unlisted lookups.** A filled field whose lookup is neither exact
  match nor in the operator table of `__unicode__` (for example `icontains`)
  makes the summary raise KeyError. Its key is read back whole and names no
  field (`FilterForms.IcontainsSummaryRaises`).

## Model

| member | source | states |
|---|---|---|
| Python.Truthy | filter_forms/forms.py:174 | Python truthiness of a cleaned value; used by `get_filter_dict` and the pair filter, see `Filters.FilterDictAllEmpty` and `Filters.BlankPairExample` |
| Python.PartitionHead | filter_forms/forms.py:206 | `key.partition(sep)[0]`; specified through `Python.FindFrom` and `Summaries.SplitKeyFirstOccurrence` |
| Python.EndsWith | filter_forms/forms.py:204 | `key.endswith(suffix)`; used by `Summaries.SplitKey` and `Summaries.MatchOperator`, whose contracts and `Summaries.SuffixesExclusive` state what it decides |
| Python.Join | filter_forms/forms.py:215 | `sep.join(parts)`, for both the `' and '` join of a list value and the `'\n'` join at line 220; its results are pinned by `Summaries.ListAndTupleEntries` |
| Python.Repr | filter_forms/forms.py:216-217 | `repr` of a value inside a list or tuple, as `'{0}'.format` writes it; a tuple is written `(1, 2)` (see `Summaries.ListAndTupleEntries`) |
| Python.Str | filter_forms/forms.py:213-217 | `'{0}'.format(value)`: a string as it is, anything else as its `repr` |
| Python.Get | filter_forms/forms.py:160-161 | `d[k]` is absent exactly when no item has key `k`; otherwise it is the value of an item with that key |
| Python.GetDistinct | filter_forms/forms.py:161 | in a dict (distinct keys) looking up an item's key gives that item's value |
| Python.RStripUnderscores | filter_forms/forms.py:166-168 | `rstrip('_')` returns a prefix that does not end in `_`, and only `_` characters are removed |
| Python.RStripUnique | filter_forms/forms.py:166-168 | those three properties determine `rstrip('_')` uniquely |
| Python.RStripAppendUnderscore | filter_forms/forms.py:166-168 | one more trailing `_` does not change `rstrip('_')` |
| Python.FindFrom | filter_forms/forms.py:206 | the search finds the first occurrence of the separator at or after the start, or reports that there is none |
| Filters.Resolve | filter_forms/forms.py:162 | `FILTERMETHODS.get(m, m)`; specified by `Filters.ResolveAliases` |
| Filters.ResolveAliases | filter_forms/forms.py:94-97 | `min_max` resolves to (gte, lte), `inner_range` to (gt, lt); every other name, `minmax` and `range` included, is passed through unchanged; a tuple is used as it is; a list raises TypeError |
| Filters.Key | filter_forms/forms.py:166-168 | the key `'{0}__{1}'.format(...).rstrip('_')`; specified by `Filters.KeyExactMatch`, `Filters.KeyWithLookup` and `Python.RStripUnique` |
| Filters.ZipFilter | filter_forms/forms.py:166-167 | the comprehension over `zip`: every truthy value's key is in the dict |
| Filters.ZipFilterLastWins | filter_forms/forms.py:166-167 | each key of that dict comes from a truthy pair and holds the value of the last truthy pair that forms it |
| Filters.FieldAsFilter | filter_forms/forms.py:147-168 | `_field_as_filter`; specified by the `Filters.FieldAsFilter...` lemmas below |
| Filters.KeyExactMatch | filter_forms/forms.py:166-168 | an empty filter method gives the bare field name (minus any trailing `_` of the name itself) |
| Filters.KeyWithLookup | filter_forms/forms.py:166-168 | a non-empty lookup not ending in `_` gives exactly `field__lookup` |
| Filters.FieldAsFilterMissing | filter_forms/forms.py:160-161 | a name that is not a form field, or has no cleaned value, raises KeyError for that name |
| Filters.FieldAsFilterSingle | filter_forms/forms.py:160-168 | a lookup given by name, not an alias, maps the single key `field__method` to the whole cleaned value |
| Filters.FieldAsFilterList | filter_forms/forms.py:162 | lookups given as a list raise TypeError |
| Filters.FieldAsFilterArity | filter_forms/forms.py:162-165 | several lookups whose cleaned value is not a list or tuple of as many values raise AssertionError |
| Filters.FieldAsFilterZip | filter_forms/forms.py:162-167 | several lookups with a list or tuple of as many values build without error; each truthy value's key is present; each key holds the value of the last truthy pair forming it |
| Filters.FieldAsFilterPair | filter_forms/forms.py:162-167 | an alias with a two-value list gives at most two keys; a half's key is present iff that half is truthy, and it maps to that half |
| Filters.FieldAsFilterTruthy | filter_forms/forms.py:160-168 | a field built from a truthy value stores only truthy values |
| Filters.FilterDict | filter_forms/forms.py:170-176 | `get_filter_dict` as a fold over the items; specified by the `Filters.FilterDict...` lemmas below |
| Filters.FilterDictOk | filter_forms/forms.py:173-175 | if every truthy item's field builds, `get_filter_dict` succeeds (the converse is `Filters.FilterDictComplete`) |
| Filters.FilterDictFirstError | filter_forms/forms.py:173-175 | if it raises, it raises the error of the first truthy item whose field does not build |
| Filters.FilterDictErrSticky | filter_forms/forms.py:173-175 | once a visited field raises, `get_filter_dict` raises that same error |
| Filters.FilterDictAllEmpty | filter_forms/forms.py:172-176 | items whose values are all falsy give the empty dict |
| Filters.FilterDictComplete | filter_forms/forms.py:173-175 | every truthy item is visited without error, and all of its keys are in the result |
| Filters.FilterDictLastWins | filter_forms/forms.py:173-175 | each key of the result comes from a truthy item and holds the value of the last truthy item that writes it |
| Filters.FilterDictIgnoresArgumentValues | filter_forms/forms.py:161 | two item lists with the same names and the same truthiness give the same dict |
| Filters.FilterDictNoBlankValues | filter_forms/forms.py:166-175 | when the visited values are the form's own, no value in the dict is blank |
| Filters.OwnDataNoBlankValues | filter_forms/forms.py:173-175 | filtering by the form's own cleaned data never yields a blank value |
| Filters.PairExample | filter_forms/forms.py:94-97 | a one-field form whose alias gets two truthy bounds filters by both keys |
| Filters.SizeInnerRangeExample | filter_forms/forms.py:152-154 | `size` with `inner_range` and [10, 20] gives {size__gt: 10, size__lt: 20} |
| Filters.HalfOpenTupleExample | filter_forms/forms.py:162-167 | lookups given as the tuple (gte, lt) with [1, 5] give {size__gte: 1, size__lt: 5} |
| Filters.PagesMinMaxExample | filter_forms/forms.py:94-95 | `pages` with `min_max` and [10, 20] gives {pages__gte: 10, pages__lte: 20} |
| Filters.AuthorIcontainsExample | filter_forms/forms.py:156-157 | `author` with `icontains` gives {author__icontains: value} |
| Filters.BlankPairExample | filter_forms/forms.py:166-167 | an alias whose two halves are blank contributes nothing, although the list is truthy |
| Filters.CallerValueIgnoredExample | filter_forms/forms.py:161 | the caller's value for a field is replaced by the form's own cleaned value |
| Summaries.OperatorsSuffixFree | filter_forms/forms.py:194-199 | no suffix of the operator table ends with another |
| Summaries.SuffixesExclusive | filter_forms/forms.py:203-207 | a key ends with at most one table suffix, so the dict order of the table does not matter |
| Summaries.SplitKey | filter_forms/forms.py:202-210 | a key ending in a table suffix splits into the part before the first occurrence of that suffix and its word; any other key is kept whole with "=" |
| Summaries.MatchOperator | filter_forms/forms.py:203-210 | the loop with `break` and `for ... else` computes exactly that split |
| Summaries.SplitKeyOfKey | filter_forms/forms.py:204-206 | `field + suffix` splits back into `field` and the suffix's word, when the suffix does not occur earlier |
| Summaries.SplitKeyOfLookup | filter_forms/forms.py:166-168 | a key formed by `_field_as_filter` from a lookup in the table splits back into the field name and that lookup's word |
| Summaries.SplitKeyUnlisted | filter_forms/forms.py:208-210 | an `icontains` key is shown whole with "=" |
| Summaries.SplitKeyFirstOccurrence | filter_forms/forms.py:206 | field `a__gt` with lookup `gt` is read back as field `a` |
| Summaries.LabelOf | filter_forms/forms.py:211 | `self[fieldname].label`: the field's own label, or Django's `pretty_name` of its name; used by `Summaries.LineFor` in the contract of `FilterForms.FilterForm.Summary` |
| Summaries.FormatEntry | filter_forms/forms.py:211-217 | the line of one entry: a string quoted, a list's elements quoted and joined by " and ", anything else (a tuple included) unquoted; used by `FilterForms.FilterForm.Summary` |
| Summaries.ListAndTupleEntries | filter_forms/forms.py:212-217 | the list [1, 2] is shown `"1" and "2"`, the tuple (1, 2) is shown `(1, 2)`: only `isinstance(value, list)` holds for a list |
| Summaries.Present | filter_forms/forms.py:220 | the entries in form field order; specified by `Summaries.PresentCount` and `Summaries.PresentOnePerEntry` |
| Summaries.JoinLines | filter_forms/forms.py:220 | those lines joined by newlines; the text `FilterForms.FilterForm.Summary` returns |
| Summaries.PresentCount | filter_forms/forms.py:220 | with a repeat-free field order there is one line per listed field that has an entry |
| Summaries.PresentOnePerEntry | filter_forms/forms.py:220 | when the order lists every entry, there is exactly one line per entry |
| FilterForms.CreateField | filter_forms/forms.py:104-110 | `create_field` with its defaults; specified by `FilterForms.DefaultFieldExactMatch` |
| FilterForms.ConfOf | filter_forms/forms.py:128-144 | a non-empty label overrides the `label` argument; the filter method is copied |
| FilterForms.FieldTable | filter_forms/forms.py:127-145 | the fields `__init__` inserts; specified by `FilterForms.FieldTableShape`, `FilterForms.FieldTableLastWins` and `FilterForms.FieldTableOrder` |
| FilterForms.SuperUnicode | filter_forms/forms.py:192 | `super(start, obj).__unicode__()`: TypeError unless `start` is the form class and `obj` an instance of it, else Django's default rendering; see `FilterForms.SuperAsWrittenFails` |
| FilterForms.FilterForm.constructor | filter_forms/forms.py:124-145 | the fields inserted are the field table of the descriptors, in order |
| FilterForms.FieldTableShape | filter_forms/forms.py:127-145 | each descriptor's field becomes a form field, and the field order lists each once |
| FilterForms.FieldTableLastWins | filter_forms/forms.py:128-145 | a field keeps the settings of the last descriptor that names it |
| FilterForms.FieldTableOrder | filter_forms/forms.py:145 | fields are ordered by the first descriptor that names them |
| FilterForms.DefaultFieldExactMatch | filter_forms/forms.py:104-110 | a `create_field` descriptor with its defaults filters by exact match: a truthy value v gives {field: v} |
| FilterForms.FilterForm.GetFilterDict | filter_forms/forms.py:170-176 | the loop builds the merged dict of the truthy items, or raises the first field's error |
| FilterForms.FilterForm.Filter | filter_forms/forms.py:178-187 | without data of its own an invalid form raises RuntimeError; otherwise the query is filtered once by the dict of the given (or the form's) data, or the error propagates |
| FilterForms.FilterForm.Summary | filter_forms/forms.py:189-221 | an invalid form gets Django's rendering; a dict error propagates; a key naming no field raises KeyError; otherwise one line per named field, in form order |
| FilterForms.EmptyFormSummary | filter_forms/forms.py:172-176 | all-blank cleaned data filters nothing, and its summary is the empty string |
| FilterForms.IcontainsSummaryRaises | filter_forms/forms.py:202-211 | an `icontains` field with a value puts `field__icontains` in the dict, and that key names no form field, so `__unicode__` raises KeyError |
| FilterForms.BoundKeysSplit | filter_forms/forms.py:194-206 | the two keys of a `min_max` field differ, and both name that field |
| FilterForms.MinMaxSummaryShowsOneBound | filter_forms/forms.py:201-217 | a `min_max` field with both bounds set gets one summary line, showing one bound only |
| FilterForms.SuperAsWrittenFails | filter_forms/forms.py:192 | `super(self, _FilterForm)` raises TypeError |

## Left out

- Range fields and their widget (`RangeWidget`, `rangefield_factory`, lines 52-90) are left out because they are Django form machinery. The model starts from cleaned values; a range field's cleaned pair is a two-element list.
- The constructor does not look up field classes and widgets by name (lines 131-140). A descriptor's field type and widget are kept but not resolved, so the AttributeError for an unknown name is not modelled.
- The constructor does not model field construction. Writing the label into the shared `args` dict of a descriptor is reduced to the label the field ends up with (`ConfOf`).
- `widget_attrs` (lines 142-143) is kept in the descriptor but has no effect in the model.
- Validation (`is_valid`, `cleaned_data`) is Django's, so the model takes both as inputs of the form.
- The AttributeError raised when `filter` is given data for a form that was never validated is not modelled. In that case the form has no `cleaned_data`; here it always has some.
- `queryset.filter` is left out because its meaning is the ORM's. `Filter` returns the query with the filter dict applied to it as a record.
- `ugettext` is taken as the identity, and Django's `pretty_name` is a parameter of `Summary`.
- Values are None, booleans, strings, integers, lists and tuples. Decimals, floats and dates are not modelled, and neither is string escaping in `repr`.
- `filter(query, cleaned_data)` takes the empty item list for both a missing argument and an empty dict. Both are falsy, and the code treats them alike.

## Findings

| source | as written | input that shows it | evidently intended | confidence | as-written member | corrected member |
|---|---|---|---|---|---|---|
| filter_forms/forms.py:192 | `super(self, _FilterForm).__unicode__()` passes the instance where `super` needs the class | any invalid bound form, e.g. one missing a required value | `super(_FilterForm, self).__unicode__()`, Django's default rendering of an invalid form | high, not executed | FilterForms.SuperAsWrittenFails | FilterForms.FilterForm.Summary |
