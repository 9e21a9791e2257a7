/** The parameters `DynamoService.scan` builds for a table scan: the table,
    an optional page size and start key, and a filter that is a conjunction
    of `#attrN = :valN` equalities with the names and values they stand
    for. The filter's entries are given in `Object.entries` order. */
module ScanParams {
  import opened Wrappers
  import opened Text
  import opened JsValues

  /** The `options` argument; each field may be left out. */
  datatype ScanOptions = ScanOptions(
    limit: Option<Num>,
    lastEvaluatedKey: Option<map<string, Value>>,
    filters: Option<seq<(string, Value)>>)

  /** The `ScanCommandInput` built; a `None` field is one left unset. */
  datatype ScanInput = ScanInput(
    tableName: string,
    limit: Option<Num>,
    exclusiveStartKey: Option<map<string, Value>>,
    filterExpression: Option<string>,
    attributeNames: Option<map<string, string>>,
    attributeValues: Option<map<string, Value>>)

  /** The placeholder for the name of the `i`-th filter attribute. */
  function AttrName(i: nat): string
  {
    "#attr" + NatText(i)
  }

  /** The placeholder for the value of the `i`-th filter attribute. */
  function ValueName(i: nat): string
  {
    ":val" + NatText(i)
  }

  /** The `i`-th equality of the filter. */
  function Clause(i: nat): string
  {
    AttrName(i) + " = " + ValueName(i)
  }

  /** The equalities for `n` entries, in entry order. */
  function Clauses(n: nat): (cs: seq<string>)
    ensures |cs| == n
    ensures forall i :: 0 <= i < n ==> cs[i] == Clause(i)
  {
    seq(n, i requires 0 <= i < n => Clause(i))
  }

  /** The attribute names the placeholders stand for. */
  function NamesOf(entries: seq<(string, Value)>): map<string, string>
  {
    if entries == [] then map[]
    else NamesOf(entries[..|entries| - 1])[AttrName(|entries| - 1) := entries[|entries| - 1].0]
  }

  /** The attribute values the placeholders stand for. */
  function ValuesOf(entries: seq<(string, Value)>): map<string, Value>
  {
    if entries == [] then map[]
    else ValuesOf(entries[..|entries| - 1])[ValueName(|entries| - 1) := entries[|entries| - 1].1]
  }

  /** Text after a common prefix determines the whole. */
  lemma SamePrefixSameRest(p: string, a: string, b: string)
    requires p + a == p + b
    ensures a == b
  {
    assert a == (p + a)[|p|..];
    assert b == (p + b)[|p|..];
  }

  /** Different entries get different placeholders. */
  lemma PlaceholdersDistinct(i: nat, j: nat)
    requires i != j
    ensures AttrName(i) != AttrName(j) && ValueName(i) != ValueName(j)
  {
    if AttrName(i) == AttrName(j) {
      SamePrefixSameRest("#attr", NatText(i), NatText(j));
      NatTextInjective(i, j);
    }
    if ValueName(i) == ValueName(j) {
      SamePrefixSameRest(":val", NatText(i), NatText(j));
      NatTextInjective(i, j);
    }
  }

  /** `#attr{i}` maps to the `i`-th key, and there is no other name. */
  lemma {:induction false} NamesOfLookup(entries: seq<(string, Value)>)
    ensures forall i :: 0 <= i < |entries| ==>
      AttrName(i) in NamesOf(entries) && NamesOf(entries)[AttrName(i)] == entries[i].0
    ensures forall k :: k in NamesOf(entries) ==> exists i :: 0 <= i < |entries| && k == AttrName(i)
  {
    if entries != [] {
      var n := |entries| - 1;
      var init := entries[..n];
      NamesOfLookup(init);
      forall i | 0 <= i < n
        ensures NamesOf(entries)[AttrName(i)] == entries[i].0
      {
        PlaceholdersDistinct(i, n);
        assert init[i] == entries[i];
      }
    }
  }

  /** `:val{i}` maps to the `i`-th value, and there is no other value. */
  lemma {:induction false} ValuesOfLookup(entries: seq<(string, Value)>)
    ensures forall i :: 0 <= i < |entries| ==>
      ValueName(i) in ValuesOf(entries) && ValuesOf(entries)[ValueName(i)] == entries[i].1
    ensures forall k :: k in ValuesOf(entries) ==> exists i :: 0 <= i < |entries| && k == ValueName(i)
  {
    if entries != [] {
      var n := |entries| - 1;
      var init := entries[..n];
      ValuesOfLookup(init);
      forall i | 0 <= i < n
        ensures ValuesOf(entries)[ValueName(i)] == entries[i].1
      {
        PlaceholdersDistinct(i, n);
        assert init[i] == entries[i];
      }
    }
  }

  /** Joining one more part adds the separator and the part at the end. */
  lemma {:induction false} JoinAppend(parts: seq<string>, part: string, sep: string)
    requires parts != []
    ensures Join(parts + [part], sep) == Join(parts, sep) + sep + part
  {
    if |parts| == 1 {
      assert (parts + [part])[1..] == [part];
    } else {
      assert (parts + [part])[1..] == parts[1..] + [part];
      JoinAppend(parts[1..], part, sep);
    }
  }

  /** The filter for `n + 1` entries is the filter for `n` entries, then
      `" AND "`, then the last equality; one entry gives its equality
      alone and none gives the empty text. */
  lemma FilterGrows(n: nat)
    ensures Join(Clauses(0), " AND ") == ""
    ensures Join(Clauses(1), " AND ") == Clause(0)
    ensures n >= 1 ==> Join(Clauses(n + 1), " AND ") == Join(Clauses(n), " AND ") + " AND " + Clause(n)
  {
    if n >= 1 {
      assert Clauses(n + 1) == Clauses(n) + [Clause(n)];
      JoinAppend(Clauses(n), Clause(n), " AND ");
    }
  }

  /** The `ScanCommandInput` construction in `scan(tableName, options)`:
      the table always; the page size only when it is truthy (so neither
      `0` nor `NaN`); the start key whenever one is given; and the filter
      with its names and values only when `filters` is given, one equality
      per entry in entry order. */
  method BuildScanInput(tableName: string, options: Option<ScanOptions>) returns (params: ScanInput)
    ensures params.tableName == tableName
    ensures params.limit.Some? <==>
      options.Some? && options.value.limit.Some? && Truthy(Number(options.value.limit.value))
    ensures params.limit.Some? ==> params.limit == options.value.limit
    ensures params.exclusiveStartKey == (if options.Some? then options.value.lastEvaluatedKey else None)
    ensures options.None? || options.value.filters.None? ==>
      params.filterExpression.None? && params.attributeNames.None? && params.attributeValues.None?
    ensures options.Some? && options.value.filters.Some? ==>
      var entries := options.value.filters.value;
      params.filterExpression == Some(Join(Clauses(|entries|), " AND "))
      && params.attributeNames == Some(NamesOf(entries))
      && params.attributeValues == Some(ValuesOf(entries))
  {
    params := ScanInput(tableName, None, None, None, None, None);
    if options.None? {
      return;
    }
    var opts := options.value;
    if opts.limit.Some? && Truthy(Number(opts.limit.value)) {
      params := params.(limit := opts.limit);
    }
    if opts.lastEvaluatedKey.Some? {
      params := params.(exclusiveStartKey := opts.lastEvaluatedKey);
    }
    if opts.filters.Some? {
      var entries := opts.filters.value;
      var filterExpressions: seq<string> := [];
      var names: map<string, string> := map[];
      var values: map<string, Value> := map[];
      var i := 0;
      while i < |entries|
        invariant 0 <= i <= |entries|
        invariant filterExpressions == Clauses(i)
        invariant names == NamesOf(entries[..i])
        invariant values == ValuesOf(entries[..i])
      {
        assert entries[..i + 1][..i] == entries[..i];
        filterExpressions := filterExpressions + [Clause(i)];
        names := names[AttrName(i) := entries[i].0];
        values := values[ValueName(i) := entries[i].1];
        i := i + 1;
      }
      assert entries[..i] == entries;
      params := params.(filterExpression := Some(Join(filterExpressions, " AND ")),
                        attributeNames := Some(names), attributeValues := Some(values));
    }
  }
}
