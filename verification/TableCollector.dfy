/** Collecting one SNMP table: several walks joined on the OID suffix. */
module TableCollector {
  import opened GoNumbers
  import opened Options

  /** Integers by their Go type; anything non-numeric is `Other`. */
  datatype Value =
    | IntV(i: int) | Int64V(i: int) | UintV(i: int) | Uint32V(i: int) | Uint64V(i: int)
    | Float32V(f: Float) | Float64V(f: Float) | Other(text: string)

  type Walk = map<string, Value>

  /** The agent during one collection: what a walk of an OID returns, or that it fails. */
  type Agent = string -> Option<Walk>

  datatype MetricDef = MetricDef(oid: string, name: string, kind: string, unit: string, description: string)

  /** An attribute or a lookup: the OID to walk and the name its values get. */
  datatype ColumnDef = ColumnDef(oid: string, name: string)

  datatype Group = Group(name: string, metrics: seq<MetricDef>, attributes: seq<ColumnDef>, lookups: seq<ColumnDef>)

  datatype DataPoint = DataPoint(value: Value, attrs: map<string, string>, at: int)

  datatype Collected = Collected(name: string, kind: string, unit: string, description: string, points: seq<DataPoint>)

  function NormalizeOID(oid: string): string {
    if oid != "" && oid[0] == '.' then oid[1..] else oid
  }

  /** `extractIndex`. */
  function ExtractIndex(prefix: string, full: string): string {
    var p := prefix + ".";
    if |p| <= |full| && full[..|p|] == p then full[|p|..] else ""
  }

  function Cell(oid: string, index: string): string {
    NormalizeOID(oid) + "." + index
  }

  /** An index is exactly a non-empty suffix, and it determines the OID it came from. */
  lemma IndexIsSuffix(prefix: string, full: string, index: string)
    requires index != ""
    ensures ExtractIndex(prefix, full) == index <==> full == prefix + "." + index
  {
    var p := prefix + ".";
    if ExtractIndex(prefix, full) == index {
      assert full == full[..|p|] + full[|p|..];
    }
    if full == p + index {
      assert full[..|p|] == p && full[|p|..] == index;
    }
  }

  /* ---- the join, as a definition ---- */

  /** The rows of the table: the indexes of its first column. */
  ghost function Indexes(g: Group, first: Walk): set<string>
    requires g.metrics != []
  {
    set full | full in first && ExtractIndex(NormalizeOID(g.metrics[0].oid), full) != ""
      :: ExtractIndex(NormalizeOID(g.metrics[0].oid), full)
  }

  /** What each walked column says about a row, in order. */
  function Named(defs: seq<ColumnDef>, agent: Agent, show: Value -> string, index: string): seq<(string, string)> {
    if defs == [] then [] else
    var n := |defs| - 1;
    var w := agent(defs[n].oid);
    Named(defs[..n], agent, show, index)
      + if w.Some? && Cell(defs[n].oid, index) in w.value
        then [(defs[n].name, show(w.value[Cell(defs[n].oid, index)]))] else []
  }

  /** Everything that names the row: its index, then the attributes, then the lookups. */
  function Names(g: Group, agent: Agent, show: Value -> string, index: string): seq<(string, string)> {
    [(g.name + "_index", index)] + Named(g.attributes, agent, show, index) + Named(g.lookups, agent, show, index)
  }

  function LastWins(pairs: seq<(string, string)>): map<string, string> {
    if pairs == [] then map[] else
    var n := |pairs| - 1;
    LastWins(pairs[..n])[pairs[n].0 := pairs[n].1]
  }

  /** A name is set if some pair sets it, and then by the last one that does. */
  lemma {:induction false} LastWinsMeans(pairs: seq<(string, string)>, name: string)
    ensures name in LastWins(pairs) <==> exists k :: 0 <= k < |pairs| && pairs[k].0 == name
    ensures forall k ::
      0 <= k < |pairs| && pairs[k].0 == name && (forall l :: k < l < |pairs| ==> pairs[l].0 != name) ==>
      name in LastWins(pairs) && LastWins(pairs)[name] == pairs[k].1
  {
    if pairs != [] {
      var n := |pairs| - 1;
      LastWinsMeans(pairs[..n], name);
      if pairs[n].0 != name {
        assert forall k :: 0 <= k < n ==> pairs[..n][k] == pairs[k];
      }
    }
  }

  lemma {:induction false} LastWinsConcat(a: seq<(string, string)>, b: (string, string))
    ensures LastWins(a + [b]) == LastWins(a)[b.0 := b.1]
  {
    assert (a + [b])[..|a|] == a;
  }

  /** The rows of `order` that metric `m` has a value for. */
  function Present(m: MetricDef, w: Walk, order: seq<string>): seq<string> {
    if order == [] then [] else
    var n := |order| - 1;
    Present(m, w, order[..n]) + if Cell(m.oid, order[n]) in w then [order[n]] else []
  }

  function Point(
    g: Group, m: MetricDef, w: Walk, agent: Agent, show: Value -> string, now: int, index: string): DataPoint
    requires Cell(m.oid, index) in w
  {
    DataPoint(w[Cell(m.oid, index)], LastWins(Names(g, agent, show, index)), now)
  }

  /** The points are those of the given rows, one for each, in order. */
  predicate PointsOf(g: Group, m: MetricDef, w: Walk, agent: Agent, show: Value -> string, now: int,
                     rows: seq<string>, points: seq<DataPoint>)
  {
    && |points| == |rows|
    && forall k :: 0 <= k < |rows| ==>
        Cell(m.oid, rows[k]) in w && points[k] == Point(g, m, w, agent, show, now, rows[k])
  }

  predicate JoinOf(g: Group, agent: Agent, show: Value -> string, now: int, order: seq<string>, r: seq<Collected>) {
    && |r| == |g.metrics|
    && forall i :: 0 <= i < |r| ==>
      var m := g.metrics[i];
      && agent(m.oid).Some?
      && r[i] == Collected(m.name, m.kind, m.unit, m.description, r[i].points)
      && PointsOf(g, m, agent(m.oid).value, agent, show, now, Present(m, agent(m.oid).value, order), r[i].points)
  }

  /** `order` lists the set, each element once: some iteration order of the map. */
  ghost predicate Enumerates(order: seq<string>, s: set<string>) {
    && (forall x :: x in s <==> x in order)
    && (forall i, j :: 0 <= i < j < |order| ==> order[i] != order[j])
  }

  ghost predicate WalksSucceed(g: Group, agent: Agent) {
    && (forall i :: 0 <= i < |g.metrics| ==> agent(g.metrics[i].oid).Some?)
    && (forall i :: 0 <= i < |g.attributes| ==> agent(g.attributes[i].oid).Some?)
    && (forall i :: 0 <= i < |g.lookups| ==> agent(g.lookups[i].oid).Some?)
  }

  lemma {:induction false} PresentMembers(m: MetricDef, w: Walk, order: seq<string>)
    ensures forall x :: x in Present(m, w, order) <==> x in order && Cell(m.oid, x) in w
    ensures (forall i, j :: 0 <= i < j < |order| ==> order[i] != order[j]) ==>
      forall i, j :: 0 <= i < j < |Present(m, w, order)| ==> Present(m, w, order)[i] != Present(m, w, order)[j]
  {
    if order != [] {
      var n := |order| - 1;
      PresentMembers(m, w, order[..n]);
      assert order == order[..n] + [order[n]];
      if forall i, j :: 0 <= i < j < |order| ==> order[i] != order[j] {
        assert order[n] !in order[..n];
      }
    }
  }

  /** What the join means for one metric: a bijection between its points and the rows of the table
      it has a value in - each such row once, no other row, each point with that row's value and
      names - whatever order the maps were walked in. */
  lemma JoinIsRelational(g: Group, agent: Agent, show: Value -> string, now: int, order: seq<string>,
                         r: seq<Collected>, i: nat) returns (rows: seq<string>)
    requires g.metrics != [] && agent(g.metrics[0].oid).Some?
    requires Enumerates(order, Indexes(g, agent(g.metrics[0].oid).value))
    requires JoinOf(g, agent, show, now, order, r) && i < |r|
    ensures agent(g.metrics[i].oid).Some?
    ensures var w := agent(g.metrics[i].oid).value;
      && PointsOf(g, g.metrics[i], w, agent, show, now, rows, r[i].points)
      && (forall a, b :: 0 <= a < b < |rows| ==> rows[a] != rows[b])
      && (forall x :: x in rows <==> x in Indexes(g, agent(g.metrics[0].oid).value) && Cell(g.metrics[i].oid, x) in w)
  {
    var w := agent(g.metrics[i].oid).value;
    rows := Present(g.metrics[i], w, order);
    PresentMembers(g.metrics[i], w, order);
  }

  /** The first metric has a point in every row. */
  lemma FirstColumnIsFull(g: Group, first: Walk, x: string)
    requires g.metrics != [] && x in Indexes(g, first)
    ensures Cell(g.metrics[0].oid, x) in first
  {
    var full :| full in first && ExtractIndex(NormalizeOID(g.metrics[0].oid), full) == x && x != "";
    IndexIsSuffix(NormalizeOID(g.metrics[0].oid), full, x);
  }

  /* ---- what a table says, column by column ---- */

  /** Column `i` has a value for the row. */
  predicate Gives(defs: seq<ColumnDef>, agent: Agent, x: string, i: int) {
    0 <= i < |defs| && agent(defs[i].oid).Some? && Cell(defs[i].oid, x) in agent(defs[i].oid).value
  }

  predicate GivesName(defs: seq<ColumnDef>, agent: Agent, x: string, i: int, name: string) {
    Gives(defs, agent, x, i) && defs[i].name == name
  }

  /** It is the last one of its name that has. */
  ghost predicate LastOfName(defs: seq<ColumnDef>, agent: Agent, x: string, i: int, name: string) {
    GivesName(defs, agent, x, i, name) && forall j :: i < j < |defs| ==> !GivesName(defs, agent, x, j, name)
  }

  ghost predicate NoneOfName(defs: seq<ColumnDef>, agent: Agent, x: string, name: string) {
    forall j :: 0 <= j < |defs| ==> !GivesName(defs, agent, x, j, name)
  }

  function ValueAt(defs: seq<ColumnDef>, agent: Agent, x: string, i: int): Value
    requires Gives(defs, agent, x, i)
  {
    agent(defs[i].oid).value[Cell(defs[i].oid, x)]
  }

  /** The attributes of row `x`: under each name the value of the last lookup of that name that has one;
      failing that, of the last attribute column; failing that, the index under its own name; and no
      other names. */
  ghost predicate AttributesSay(g: Group, agent: Agent, show: Value -> string, x: string, attrs: map<string, string>) {
    forall name: string ::
      && (forall i :: LastOfName(g.lookups, agent, x, i, name) ==>
            name in attrs && attrs[name] == show(ValueAt(g.lookups, agent, x, i)))
      && (NoneOfName(g.lookups, agent, x, name) ==>
            forall i :: LastOfName(g.attributes, agent, x, i, name) ==>
              name in attrs && attrs[name] == show(ValueAt(g.attributes, agent, x, i)))
      && (NoneOfName(g.lookups, agent, x, name) && NoneOfName(g.attributes, agent, x, name) ==>
            (name in attrs <==> name == g.name + "_index") && (name in attrs ==> attrs[name] == x))
  }

  ghost predicate PointSays(g: Group, agent: Agent, show: Value -> string, now: int, m: MetricDef, x: string,
                            p: DataPoint)
  {
    && agent(m.oid).Some? && Cell(m.oid, x) in agent(m.oid).value
    && p.value == agent(m.oid).value[Cell(m.oid, x)] && p.at == now
    && AttributesSay(g, agent, show, x, p.attrs)
  }

  /** The collected metric: its definition, and one point for each row that both the first metric and
      this one have a value in. */
  ghost predicate MetricSays(g: Group, agent: Agent, show: Value -> string, now: int, i: nat, c: Collected)
    requires i < |g.metrics|
  {
    var m := g.metrics[i];
    && c.name == m.name && c.kind == m.kind && c.unit == m.unit && c.description == m.description
    && exists rows: seq<string> :: RowsSay(g, agent, show, now, i, rows, c.points)
  }

  /** The rows are those of the metric, each once, and the points say them. */
  ghost predicate RowsSay(g: Group, agent: Agent, show: Value -> string, now: int, i: nat,
                          rows: seq<string>, points: seq<DataPoint>)
    requires i < |g.metrics|
  {
    && |rows| == |points|
    && (forall a, b :: 0 <= a < b < |rows| ==> rows[a] != rows[b])
    && (forall x :: x in rows <==> HasRow(g, agent, i, x))
    && forall k :: 0 <= k < |rows| ==> PointSays(g, agent, show, now, g.metrics[i], rows[k], points[k])
  }

  predicate HasRow(g: Group, agent: Agent, i: nat, x: string)
    requires i < |g.metrics|
  {
    && x != ""
    && agent(g.metrics[0].oid).Some? && Cell(g.metrics[0].oid, x) in agent(g.metrics[0].oid).value
    && agent(g.metrics[i].oid).Some? && Cell(g.metrics[i].oid, x) in agent(g.metrics[i].oid).value
  }

  /** A leading dot of a configured OID makes no difference, and nothing else is taken off. */
  lemma DotMakesNoDifference(oid: string, x: string)
    requires oid == "" || oid[0] != '.'
    ensures Cell("." + oid, x) == Cell(oid, x) == oid + "." + x
  {
  }

  /** The last of the columns of a name decides it; without any, what was there before. */
  ghost predicate Decided(defs: seq<ColumnDef>, agent: Agent, show: Value -> string, x: string,
                          before: map<string, string>, after: map<string, string>, name: string)
  {
    && (forall i :: LastOfName(defs, agent, x, i, name) ==>
          name in after && after[name] == show(ValueAt(defs, agent, x, i)))
    && (NoneOfName(defs, agent, x, name) ==>
          (name in after <==> name in before) && (name in before ==> after[name] == before[name]))
  }

  lemma {:induction false} NamedSays(defs: seq<ColumnDef>, agent: Agent, show: Value -> string, x: string,
                                     before: seq<(string, string)>, name: string)
    ensures Decided(defs, agent, show, x, LastWins(before), LastWins(before + Named(defs, agent, show, x)), name)
  {
    if defs == [] {
      assert before + Named(defs, agent, show, x) == before;
    } else {
      var n := |defs| - 1;
      var init, so := defs[..n], before + Named(defs[..n], agent, show, x);
      NamedSays(init, agent, show, x, before, name);
      NamedLast(defs, agent, show, x, before);
      DecidedNext(defs, agent, show, x, LastWins(before), LastWins(so), name);
    }
  }

  /** What the last column adds. */
  function NextNames(defs: seq<ColumnDef>, agent: Agent, show: Value -> string, x: string, so: map<string, string>)
    : map<string, string>
    requires defs != []
  {
    var n := |defs| - 1;
    if Gives(defs, agent, x, n) then so[defs[n].name := show(ValueAt(defs, agent, x, n))] else so
  }

  lemma NamedLast(defs: seq<ColumnDef>, agent: Agent, show: Value -> string, x: string, before: seq<(string, string)>)
    requires defs != []
    ensures LastWins(before + Named(defs, agent, show, x))
      == NextNames(defs, agent, show, x, LastWins(before + Named(defs[..|defs| - 1], agent, show, x)))
  {
    var n := |defs| - 1;
    var so := before + Named(defs[..n], agent, show, x);
    if Gives(defs, agent, x, n) {
      var pair := (defs[n].name, show(ValueAt(defs, agent, x, n)));
      assert before + Named(defs, agent, show, x) == so + [pair];
      LastWinsConcat(so, pair);
    } else {
      assert Named(defs, agent, show, x) == Named(defs[..n], agent, show, x);
    }
  }

  lemma DecidedNext(defs: seq<ColumnDef>, agent: Agent, show: Value -> string, x: string,
                    before: map<string, string>, so: map<string, string>, name: string)
    requires defs != [] && Decided(defs[..|defs| - 1], agent, show, x, before, so, name)
    ensures Decided(defs, agent, show, x, before, NextNames(defs, agent, show, x, so), name)
  {
    var n := |defs| - 1;
    if !GivesName(defs, agent, x, n, name) {
      forall i | LastOfName(defs, agent, x, i, name) ensures LastOfName(defs[..n], agent, x, i, name) {
        forall j | i < j < n ensures !GivesName(defs[..n], agent, x, j, name) {
          assert !GivesName(defs, agent, x, j, name);
        }
      }
      if NoneOfName(defs, agent, x, name) {
        forall j | 0 <= j < n ensures !GivesName(defs[..n], agent, x, j, name) {
          assert !GivesName(defs, agent, x, j, name);
        }
      }
    }
  }

  /** So the names of a row are as they should be. */
  lemma NamesSay(g: Group, agent: Agent, show: Value -> string, x: string)
    ensures AttributesSay(g, agent, show, x, LastWins(Names(g, agent, show, x)))
  {
    var own := [(g.name + "_index", x)];
    var most := own + Named(g.attributes, agent, show, x);
    assert own[..0] == [] && LastWins(own) == map[g.name + "_index" := x];
    forall name: string
      ensures Decided(g.attributes, agent, show, x, LastWins(own), LastWins(most), name)
      ensures Decided(g.lookups, agent, show, x, LastWins(most), LastWins(Names(g, agent, show, x)), name)
    {
      NamedSays(g.attributes, agent, show, x, own, name);
      NamedSays(g.lookups, agent, show, x, most, name);
    }
    AttributesFromColumns(g, agent, show, x, LastWins(own), LastWins(most), LastWins(Names(g, agent, show, x)));
  }

  lemma AttributesFromColumns(g: Group, agent: Agent, show: Value -> string, x: string,
                              own: map<string, string>, most: map<string, string>, attrs: map<string, string>)
    requires own == map[g.name + "_index" := x]
    requires forall name: string :: Decided(g.attributes, agent, show, x, own, most, name)
    requires forall name: string :: Decided(g.lookups, agent, show, x, most, attrs, name)
    ensures AttributesSay(g, agent, show, x, attrs)
  {
    forall name: string
      ensures forall i :: LastOfName(g.lookups, agent, x, i, name) ==>
        name in attrs && attrs[name] == show(ValueAt(g.lookups, agent, x, i))
      ensures NoneOfName(g.lookups, agent, x, name) ==>
        forall i :: LastOfName(g.attributes, agent, x, i, name) ==>
          name in attrs && attrs[name] == show(ValueAt(g.attributes, agent, x, i))
      ensures NoneOfName(g.lookups, agent, x, name) && NoneOfName(g.attributes, agent, x, name) ==>
        (name in attrs <==> name == g.name + "_index") && (name in attrs ==> attrs[name] == x)
    {
      assert Decided(g.attributes, agent, show, x, own, most, name);
      assert Decided(g.lookups, agent, show, x, most, attrs, name);
    }
  }

  lemma {:induction false} SomeIsLast(defs: seq<ColumnDef>, agent: Agent, x: string, name: string, n: nat)
    requires n <= |defs| && forall j :: n <= j < |defs| ==> !GivesName(defs, agent, x, j, name)
    ensures NoneOfName(defs, agent, x, name) || exists i :: LastOfName(defs, agent, x, i, name)
  {
    if n > 0 {
      if GivesName(defs, agent, x, n - 1, name) {
        assert LastOfName(defs, agent, x, n - 1, name);
      } else {
        SomeIsLast(defs, agent, x, name, n - 1);
      }
    }
  }

  /** The attributes of a row are determined. */
  lemma AttributesDetermined(g: Group, agent: Agent, show: Value -> string, x: string,
                             a: map<string, string>, b: map<string, string>)
    requires AttributesSay(g, agent, show, x, a) && AttributesSay(g, agent, show, x, b)
    ensures a == b
  {
    forall name: string ensures (name in a <==> name in b) && (name in a ==> a[name] == b[name]) {
      SomeIsLast(g.lookups, agent, x, name, |g.lookups|);
      SomeIsLast(g.attributes, agent, x, name, |g.attributes|);
    }
    assert a.Keys == b.Keys;
  }

  lemma RowIsShared(g: Group, agent: Agent, i: nat, x: string)
    requires i < |g.metrics| && agent(g.metrics[0].oid).Some? && agent(g.metrics[i].oid).Some?
    ensures HasRow(g, agent, i, x) <==>
      && x in Indexes(g, agent(g.metrics[0].oid).value)
      && Cell(g.metrics[i].oid, x) in agent(g.metrics[i].oid).value
  {
    var prefix, first := NormalizeOID(g.metrics[0].oid), agent(g.metrics[0].oid).value;
    if x in Indexes(g, first) {
      FirstColumnIsFull(g, first, x);
    }
    if HasRow(g, agent, i, x) {
      IndexIsSuffix(prefix, Cell(g.metrics[0].oid, x), x);
      assert ExtractIndex(prefix, Cell(g.metrics[0].oid, x)) == x;
    }
  }

  /** A metric of the join says what it should. */
  lemma JoinSays(g: Group, agent: Agent, show: Value -> string, now: int, order: seq<string>, r: seq<Collected>,
                 i: nat)
    requires g.metrics != [] && agent(g.metrics[0].oid).Some?
    requires Enumerates(order, Indexes(g, agent(g.metrics[0].oid).value))
    requires JoinOf(g, agent, show, now, order, r) && i < |r|
    ensures MetricSays(g, agent, show, now, i, r[i])
  {
    var rows := JoinIsRelational(g, agent, show, now, order, r, i);
    forall x ensures x in rows <==> HasRow(g, agent, i, x) {
      RowIsShared(g, agent, i, x);
    }
    forall k | 0 <= k < |rows| ensures PointSays(g, agent, show, now, g.metrics[i], rows[k], r[i].points[k]) {
      NamesSay(g, agent, show, rows[k]);
    }
    assert RowsSay(g, agent, show, now, i, rows, r[i].points);
  }

  lemma AllSay(g: Group, agent: Agent, show: Value -> string, now: int, order: seq<string>, r: seq<Collected>)
    requires g.metrics != [] && agent(g.metrics[0].oid).Some?
    requires Enumerates(order, Indexes(g, agent(g.metrics[0].oid).value)) && JoinOf(g, agent, show, now, order, r)
    ensures forall i :: 0 <= i < |g.metrics| ==> MetricSays(g, agent, show, now, i, r[i])
  {
    forall i | 0 <= i < |g.metrics| ensures MetricSays(g, agent, show, now, i, r[i]) {
      JoinSays(g, agent, show, now, order, r, i);
    }
  }

  /* ---- lookups as they are documented ---- */

  /** What a lookup is documented to resolve: the values of the fields it names, joined by dots. */
  function SourceKey(sources: seq<string>, attrs: map<string, string>): Option<string> {
    if sources == [] then None else
    var n := |sources| - 1;
    if sources[n] !in attrs then None
    else if n == 0 then Some(attrs[sources[0]])
    else
      var key := SourceKey(sources[..n], attrs);
      if key.None? then None else Some(key.value + "." + attrs[sources[n]])
  }

  /** What a walk of the column `oid` says about a key. The code asks it about the row index. */
  function Resolve(oid: string, key: Option<string>, w: Walk): Option<Value> {
    if key.Some? && Cell(oid, key.value) in w then Some(w[Cell(oid, key.value)]) else None
  }

  /** The code resolves a lookup as documented, whatever the agent says, if and only if the fields it
      names give the row index. */
  lemma LookupAsDocumentedIff(oid: string, index: string, sources: seq<string>, attrs: map<string, string>)
    ensures (forall w: Walk :: Resolve(oid, Some(index), w) == Resolve(oid, SourceKey(sources, attrs), w)) <==>
      SourceKey(sources, attrs) == Some(index)
  {
    var key := SourceKey(sources, attrs);
    if key != Some(index) {
      var w: Walk := map[Cell(oid, index) := Other("")];
      if key.Some? {
        OtherIndexOtherCell(oid, key.value, index);
      }
      assert Resolve(oid, Some(index), w) != Resolve(oid, key, w);
    }
  }

  lemma OtherIndexOtherCell(oid: string, x: string, y: string)
    requires x != y
    ensures Cell(oid, x) != Cell(oid, y)
  {
    var p := NormalizeOID(oid) + ".";
    assert x == (p + x)[|p|..] && y == (p + y)[|p|..];
  }

  lemma {:induction false} NamedByDefs(defs: seq<ColumnDef>, agent: Agent, show: Value -> string, index: string, k: nat)
    requires k < |Named(defs, agent, show, index)|
    ensures exists i :: 0 <= i < |defs| && defs[i].name == Named(defs, agent, show, index)[k].0
  {
    var n := |defs| - 1;
    if k < |Named(defs[..n], agent, show, index)| {
      NamedByDefs(defs[..n], agent, show, index, k);
      var i :| 0 <= i < n && defs[..n][i].name == Named(defs[..n], agent, show, index)[k].0;
      assert defs[i].name == Named(defs, agent, show, index)[k].0;
    } else {
      assert defs[n].name == Named(defs, agent, show, index)[k].0;
    }
  }

  /** A lookup that names the group's own index field does, unless a column has taken that name. */
  lemma OwnIndexIsTheKey(g: Group, agent: Agent, show: Value -> string, index: string)
    requires forall i :: 0 <= i < |g.attributes| ==> g.attributes[i].name != g.name + "_index"
    requires forall i :: 0 <= i < |g.lookups| ==> g.lookups[i].name != g.name + "_index"
    ensures SourceKey([g.name + "_index"], LastWins(Names(g, agent, show, index))) == Some(index)
  {
    var names, field := Names(g, agent, show, index), g.name + "_index";
    var own, looked := Named(g.attributes, agent, show, index), Named(g.lookups, agent, show, index);
    forall k | 0 < k < |names| ensures names[k].0 != field {
      if k <= |own| {
        NamedByDefs(g.attributes, agent, show, index, k - 1);
        assert names[k] == own[k - 1];
      } else {
        NamedByDefs(g.lookups, agent, show, index, k - 1 - |own|);
        assert names[k] == looked[k - 1 - |own|];
      }
    }
    assert names[0] == (field, index);
    LastWinsMeans(names, field);
  }

  /* ---- the collector ---- */

  /** Walks each of the columns; fails with the first walk that fails. */
  method WalkColumns(agent: Agent, defs: seq<ColumnDef>) returns (r: Option<map<string, Walk>>)
    ensures r.None? <==> exists i :: 0 <= i < |defs| && agent(defs[i].oid).None?
    ensures r.Some? ==> forall i :: 0 <= i < |defs| ==>
      defs[i].oid in r.value && agent(defs[i].oid) == Some(r.value[defs[i].oid])
  {
    var walks: map<string, Walk> := map[];
    for i := 0 to |defs|
      invariant forall j :: 0 <= j < i ==> defs[j].oid in walks && agent(defs[j].oid) == Some(walks[defs[j].oid])
    {
      var w := agent(defs[i].oid);
      if w.None? { return None; }
      walks := walks[defs[i].oid := w.value];
    }
    return Some(walks);
  }

  /** The indexes of the first column, in whatever order its map is iterated. */
  method CollectIndexes(g: Group, first: Walk) returns (order: seq<string>)
    requires g.metrics != []
    ensures Enumerates(order, Indexes(g, first))
  {
    var prefix := NormalizeOID(g.metrics[0].oid);
    order := [];
    var left := first.Keys;
    while left != {}
      invariant left <= first.Keys
      invariant forall x ::
        x in order <==> exists full :: full in first.Keys - left && ExtractIndex(prefix, full) == x && x != ""
      invariant forall i, j :: 0 <= i < j < |order| ==> order[i] != order[j]
      decreases left
    {
      var full :| full in left;
      var index := ExtractIndex(prefix, full);
      if index != "" {
        if index in order {
          var other :| other in first.Keys - left && ExtractIndex(prefix, other) == index;
          IndexIsSuffix(prefix, full, index);
          IndexIsSuffix(prefix, other, index);
        }
        order := order + [index];
      }
      left := left - {full};
    }
  }

  /** What one more column adds to the names of a row. */
  lemma OneMoreName(agent: Agent, show: Value -> string, defs: seq<ColumnDef>, i: nat, index: string,
                    pairs: seq<(string, string)>)
    requires i < |defs| && agent(defs[i].oid).Some?
    ensures var w, before := agent(defs[i].oid).value, LastWins(pairs + Named(defs[..i], agent, show, index));
      LastWins(pairs + Named(defs[..i + 1], agent, show, index))
        == if Cell(defs[i].oid, index) in w then before[defs[i].name := show(w[Cell(defs[i].oid, index)])] else before
  {
    var w, so := agent(defs[i].oid).value, pairs + Named(defs[..i], agent, show, index);
    assert defs[..i + 1][..i] == defs[..i];
    if Cell(defs[i].oid, index) in w {
      var pair := (defs[i].name, show(w[Cell(defs[i].oid, index)]));
      LastWinsConcat(so, pair);
      assert pairs + Named(defs[..i + 1], agent, show, index) == so + [pair];
    } else {
      assert Named(defs[..i + 1], agent, show, index) == Named(defs[..i], agent, show, index);
    }
  }

  /** Adds what the walked columns say about the row to its attributes. */
  method AddNames(agent: Agent, show: Value -> string, defs: seq<ColumnDef>, walks: map<string, Walk>, index: string,
                  before: map<string, string>, ghost pairs: seq<(string, string)>)
    returns (attrs: map<string, string>)
    requires forall i :: 0 <= i < |defs| ==> defs[i].oid in walks && agent(defs[i].oid) == Some(walks[defs[i].oid])
    requires before == LastWins(pairs)
    ensures attrs == LastWins(pairs + Named(defs, agent, show, index))
  {
    attrs := before;
    assert pairs + [] == pairs;
    for i := 0 to |defs|
      invariant attrs == LastWins(pairs + Named(defs[..i], agent, show, index))
    {
      OneMoreName(agent, show, defs, i, index, pairs);
      var w := walks[defs[i].oid];
      if Cell(defs[i].oid, index) in w {
        attrs := attrs[defs[i].name := show(w[Cell(defs[i].oid, index)])];
      }
    }
    assert defs[..|defs|] == defs;
  }

  /** The points of one metric. */
  method CollectPoints(g: Group, agent: Agent, show: Value -> string, now: int, m: MetricDef, w: Walk,
                       attrWalks: map<string, Walk>, lookupWalks: map<string, Walk>, order: seq<string>)
    returns (points: seq<DataPoint>)
    requires forall i :: 0 <= i < |g.attributes| ==>
      g.attributes[i].oid in attrWalks && agent(g.attributes[i].oid) == Some(attrWalks[g.attributes[i].oid])
    requires forall i :: 0 <= i < |g.lookups| ==>
      g.lookups[i].oid in lookupWalks && agent(g.lookups[i].oid) == Some(lookupWalks[g.lookups[i].oid])
    ensures PointsOf(g, m, w, agent, show, now, Present(m, w, order), points)
  {
    points := [];
    for i := 0 to |order|
      invariant PointsOf(g, m, w, agent, show, now, Present(m, w, order[..i]), points)
    {
      var index := order[i];
      assert order[..i + 1][..i] == order[..i];
      if Cell(m.oid, index) in w {
        ghost var own := [(g.name + "_index", index)];
        assert own[..0] == [];
        var attrs := map[g.name + "_index" := index];
        assert attrs == LastWins(own);
        attrs := AddNames(agent, show, g.attributes, attrWalks, index, attrs, own);
        own := own + Named(g.attributes, agent, show, index);
        attrs := AddNames(agent, show, g.lookups, lookupWalks, index, attrs, own);
        points := points + [DataPoint(w[Cell(m.oid, index)], attrs, now)];
      }
    }
    assert order[..|order|] == order;
  }

  /** `collectTable`: it fails exactly if some walk fails, and otherwise joins the walks. */
  method CollectTable(g: Group, agent: Agent, show: Value -> string, now: int)
    returns (r: Option<seq<Collected>>, order: seq<string>)
    ensures g.metrics == [] ==> r == Some([])
    ensures g.metrics != [] ==> (r.Some? <==> WalksSucceed(g, agent))
    ensures g.metrics != [] && r.Some? ==>
      && agent(g.metrics[0].oid).Some?
      && Enumerates(order, Indexes(g, agent(g.metrics[0].oid).value))
      && JoinOf(g, agent, show, now, order, r.value)
    ensures r.Some? ==> |r.value| == |g.metrics|
    ensures r.Some? ==> forall i :: 0 <= i < |g.metrics| ==> MetricSays(g, agent, show, now, i, r.value[i])
  {
    if |g.metrics| == 0 {
      return Some([]), [];
    }
    var metricWalks: seq<Walk> := [];
    for i := 0 to |g.metrics|
      invariant |metricWalks| == i && forall j :: 0 <= j < i ==> agent(g.metrics[j].oid) == Some(metricWalks[j])
    {
      var w := agent(g.metrics[i].oid);
      if w.None? { return None, []; }
      metricWalks := metricWalks + [w.value];
    }
    order := CollectIndexes(g, metricWalks[0]);
    var attrWalks := WalkColumns(agent, g.attributes);
    if attrWalks.None? { return None, []; }
    var lookupWalks := WalkColumns(agent, g.lookups);
    if lookupWalks.None? { return None, []; }
    var result: seq<Collected> := [];
    for i := 0 to |g.metrics|
      invariant |result| == i
      invariant forall j :: 0 <= j < i ==>
        var m := g.metrics[j];
        && result[j] == Collected(m.name, m.kind, m.unit, m.description, result[j].points)
        && PointsOf(g, m, metricWalks[j], agent, show, now, Present(m, metricWalks[j], order), result[j].points)
    {
      var m := g.metrics[i];
      var points := CollectPoints(g, agent, show, now, m, metricWalks[i], attrWalks.value, lookupWalks.value, order);
      result := result + [Collected(m.name, m.kind, m.unit, m.description, points)];
    }
    AllSay(g, agent, show, now, order, result);
    return Some(result), order;
  }
}
