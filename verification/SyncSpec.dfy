/** One table says what a synchronizer replicates and how each property goes. The hints travel as metas
    keyed by a property's leaf name alone, so two properties that share one could lose theirs; a table
    the check finds nothing wrong with loses none. */
module SyncSpec {
  import opened Options
  import opened Wire
  import opened Values

  const MAX_SLOTS: nat := 32

  const QUANT_HINTS: seq<string> := ["angle8", "angle16", "half", "vec3_half", "time_delta"]

  /** The engine's node paths: the text a path is known by, whichever way it was written, and its
      property names, which that text determines. */
  datatype Paths = Paths(text: string -> string, subnames: string -> seq<string>)

  /** A property's options. A grid need not be a number, nor a push a bool, though either converts. */
  datatype Opts = Opts(
    quant: Option<string>,
    grid: Option<Grid>,
    push: Option<Push>,
    mode: Option<int>,
    unknown: seq<string>
  ) {
    predicate HasHint() {
      quant.Some? || grid.Some? || push.Some?
    }
  }

  datatype Grid = Grid(isNumber: bool, value: real)

  datatype Push = Push(isBool: bool, value: bool)

  const NoOpts := Opts(None, None, None, None, [])

  /** A row: the path as the game wrote it, and its options if it has a table of them. */
  datatype Row = Row(key: string, opts: Option<Opts>)

  /** The config's properties, in order, and which of them are streamed. */
  datatype Property = Property(path: string, streamed: bool)

  datatype Problem =
    | NoProperty(row: nat)
    | NotATable(row: nat)
    | UnknownOption(row: nat, option: string)
    | UnknownQuant(row: nat)
    | BadGrid(row: nat)
    | GridAndQuant(row: nat)
    | NonBoolPush(row: nat)
    | BadMode(row: nat)
    | SharedLeaf(owner: nat, row: nat)
    | UnknownSyncOption(option: string)
    | Undeclared(path: string)
    | NotReplicated(path: string)

  function OptsOf(row: Row): Opts {
    if row.opts.Some? then row.opts.value else NoOpts
  }

  /** The name the metas key by: the last subname. */
  function LeafOf(p: Paths, row: Row): string {
    var names := p.subnames(p.text(row.key));
    if names == [] then row.key else names[|names| - 1]
  }

  // --- The metas, and what is read back from them ---

  function QuantHints(p: Paths, decl: seq<Row>): map<string, string> {
    if decl == [] then map[]
    else
      var front, row := QuantHints(p, decl[..|decl| - 1]), decl[|decl| - 1];
      if OptsOf(row).quant.Some? then front[LeafOf(p, row) := OptsOf(row).quant.value] else front
  }

  function Grids(p: Paths, decl: seq<Row>): map<string, real> {
    if decl == [] then map[]
    else
      var front, row := Grids(p, decl[..|decl| - 1]), decl[|decl| - 1];
      if OptsOf(row).grid.Some? then front[LeafOf(p, row) := OptsOf(row).grid.value.value] else front
  }

  function Pushes(row: Row): bool {
    OptsOf(row).push.Some? && OptsOf(row).push.value.value
  }

  function Pushed(p: Paths, decl: seq<Row>): seq<string> {
    if decl == [] then []
    else
      var front, row := Pushed(p, decl[..|decl| - 1]), decl[|decl| - 1];
      if Pushes(row) then front + [LeafOf(p, row)] else front
  }

  /** The streamed properties, as many as the mask has room for. */
  function Slots(cfg: seq<Property>): (slots: seq<string>)
    ensures |slots| <= MAX_SLOTS
  {
    if cfg == [] then []
    else
      var front, last := Slots(cfg[..|cfg| - 1]), cfg[|cfg| - 1];
      if last.streamed && |front| < MAX_SLOTS then front + [last.path] else front
  }

  function SlotLeaf(p: Paths, path: string): string {
    var names := p.subnames(path);
    if names == [] then "" else names[|names| - 1]
  }

  function QuantFromName(name: string): byte {
    if name == "angle16" then TAG_ANGLE16
    else if name == "angle8" then TAG_ANGLE8
    else if name == "half" then TAG_HALF
    else if name == "vec3_half" then TAG_VEC3_HALF
    else if name == "time_delta" then TAG_TIME_DELTA
    else QUANT_AUTO
  }

  function QuantOf(p: Paths, hints: map<string, string>, path: string): byte {
    var leaf := SlotLeaf(p, path);
    if leaf in hints then QuantFromName(hints[leaf]) else QUANT_AUTO
  }

  function GridOf(p: Paths, grids: map<string, real>, path: string): real {
    var leaf := SlotLeaf(p, path);
    if leaf in grids then grids[leaf] else 0.0
  }

  function PushOf(p: Paths, names: seq<string>, path: string): bool {
    var leaf := SlotLeaf(p, path);
    leaf != "" && leaf in names
  }

  // --- The check ---

  /** The row names a property and has a table, so its leaf is claimed by it or one before it. */
  predicate Claims(p: Paths, row: Row) {
    p.subnames(p.text(row.key)) != [] && row.opts.Some?
  }

  /** The first row before k to claim a leaf. */
  function Owner(p: Paths, decl: seq<Row>, k: nat, leaf: string): (owner: Option<nat>)
    requires k <= |decl|
    ensures owner.Some? ==> owner.value < k && Claims(p, decl[owner.value]) && LeafOf(p, decl[owner.value]) == leaf
    ensures owner.None? ==> forall i | 0 <= i < k :: !(Claims(p, decl[i]) && LeafOf(p, decl[i]) == leaf)
  {
    if k == 0 then None
    else
      var before := Owner(p, decl, k - 1, leaf);
      if before.Some? then before
      else if Claims(p, decl[k - 1]) && LeafOf(p, decl[k - 1]) == leaf then Some(k - 1)
      else None
  }

  function Flat(parts: seq<seq<Problem>>): seq<Problem> {
    if parts == [] then [] else Flat(parts[..|parts| - 1]) + parts[|parts| - 1]
  }

  function If(condition: bool, problem: Problem): seq<Problem> {
    if condition then [problem] else []
  }

  function UnknownOptions(k: nat, names: seq<string>): seq<Problem> {
    if names == [] then [] else UnknownOptions(k, names[..|names| - 1]) + [UnknownOption(k, names[|names| - 1])]
  }

  function OptionParts(k: nat, o: Opts): seq<seq<Problem>> {
    [
      UnknownOptions(k, o.unknown),
      If(o.quant.Some? && o.quant.value !in QUANT_HINTS, UnknownQuant(k)),
      If(o.grid.Some? && (!o.grid.value.isNumber || o.grid.value.value <= 0.0), BadGrid(k)),
      If(o.grid.Some? && o.quant.Some?, GridAndQuant(k)),
      If(o.push.Some? && !o.push.value.isBool, NonBoolPush(k)),
      If(o.mode.Some? && o.mode.value !in [0, 1, 2], BadMode(k))
    ]
  }

  function OptionProblems(k: nat, o: Opts): seq<Problem> {
    Flat(OptionParts(k, o))
  }

  function LeafProblems(p: Paths, decl: seq<Row>, k: nat): seq<Problem>
    requires k < |decl|
  {
    match Owner(p, decl, k, LeafOf(p, decl[k]))
    case None => []
    case Some(owner) => If(OptsOf(decl[k]).HasHint() || OptsOf(decl[owner]).HasHint(), SharedLeaf(owner, k))
  }

  function RowProblems(p: Paths, decl: seq<Row>, k: nat): seq<Problem>
    requires k < |decl|
  {
    if p.subnames(p.text(decl[k].key)) == [] then [NoProperty(k)]
    else if decl[k].opts.None? then [NotATable(k)]
    else OptionProblems(k, decl[k].opts.value) + LeafProblems(p, decl, k)
  }

  function TableParts(p: Paths, decl: seq<Row>): seq<seq<Problem>> {
    seq(|decl|, k requires 0 <= k < |decl| => RowProblems(p, decl, k))
  }

  function SyncProblems(opts: seq<string>): seq<Problem> {
    if opts == [] then []
    else SyncProblems(opts[..|opts| - 1]) + If(opts[|opts| - 1] != "priority", UnknownSyncOption(opts[|opts| - 1]))
  }

  function Declared(p: Paths, decl: seq<Row>): set<string> {
    set k | 0 <= k < |decl| :: p.text(decl[k].key)
  }

  function UndeclaredIn(p: Paths, decl: seq<Row>, cfg: seq<Property>): seq<Problem> {
    if cfg == [] then []
    else
      var last := cfg[|cfg| - 1];
      UndeclaredIn(p, decl, cfg[..|cfg| - 1]) + If(last.path !in Declared(p, decl), Undeclared(last.path))
  }

  // --- What a clean table is ---

  lemma {:induction false} NoPart(parts: seq<seq<Problem>>, k: nat)
    requires k < |parts| && Flat(parts) == []
    ensures parts[k] == []
  {
    if k < |parts| - 1 {
      NoPart(parts[..|parts| - 1], k);
    }
  }

  /** The row has its leaf to itself, or neither it nor the leaf's owner has a hint. */
  predicate Sound(p: Paths, decl: seq<Row>, k: nat)
    requires k < |decl|
  {
    var owner := Owner(p, decl, k, LeafOf(p, decl[k]));
    Claims(p, decl[k]) && (owner.Some? ==> !OptsOf(decl[k]).HasHint() && !OptsOf(decl[owner.value]).HasHint())
  }

  lemma CleanIsSound(p: Paths, decl: seq<Row>)
    requires Flat(TableParts(p, decl)) == []
    ensures forall k | 0 <= k < |decl| :: Sound(p, decl, k)
  {
    forall k | 0 <= k < |decl|
      ensures Sound(p, decl, k)
    {
      NoPart(TableParts(p, decl), k);
      assert RowProblems(p, decl, k) == [];
    }
  }

  /** Two rows of one leaf: whichever owns it, neither may have a hint, though only one of them may have
      been compared with the other. */
  lemma SharersHaveNone(p: Paths, decl: seq<Row>, i: nat, j: nat)
    requires i < j < |decl| && (forall k | 0 <= k < |decl| :: Sound(p, decl, k))
             && LeafOf(p, decl[i]) == LeafOf(p, decl[j])
    ensures !OptsOf(decl[i]).HasHint() && !OptsOf(decl[j]).HasHint()
  {
    assert Sound(p, decl, i) && Sound(p, decl, j);
    OwnerIsFirst(p, decl, j, LeafOf(p, decl[j]), i);
    var owner := Owner(p, decl, j, LeafOf(p, decl[j])).value;
    if owner < i {
      OwnerStands(p, decl, i, j, owner);
    }
  }

  lemma {:induction false} OwnerIsFirst(p: Paths, decl: seq<Row>, k: nat, leaf: string, i: nat)
    requires i < k <= |decl| && Claims(p, decl[i]) && LeafOf(p, decl[i]) == leaf
    ensures Owner(p, decl, k, leaf).Some? && Owner(p, decl, k, leaf).value <= i
  {
    if i < k - 1 {
      OwnerIsFirst(p, decl, k - 1, leaf, i);
    }
  }

  lemma {:induction false} OwnerStands(p: Paths, decl: seq<Row>, i: nat, j: nat, owner: nat)
    requires owner < i < j <= |decl| && Owner(p, decl, j, LeafOf(p, decl[i])) == Some(owner)
    ensures Owner(p, decl, i, LeafOf(p, decl[i])) == Some(owner)
    decreases j
  {
    if i < j - 1 {
      OwnerStands(p, decl, i, j - 1, owner);
    }
  }

  // --- What is read back ---

  /** A leaf with no hint of a kind has no meta of that kind, and one with one has its own. */
  lemma {:induction false} HintsAre(p: Paths, decl: seq<Row>, leaf: string)
    ensures leaf in QuantHints(p, decl) ==>
              exists k :: 0 <= k < |decl| && LeafOf(p, decl[k]) == leaf
                  && OptsOf(decl[k]).quant == Some(QuantHints(p, decl)[leaf])
    ensures leaf in Grids(p, decl) ==>
              exists k :: 0 <= k < |decl| && LeafOf(p, decl[k]) == leaf
                          && OptsOf(decl[k]).grid.Some? && OptsOf(decl[k]).grid.value.value == Grids(p, decl)[leaf]
    ensures leaf in Pushed(p, decl) ==> exists k :: 0 <= k < |decl| && LeafOf(p, decl[k]) == leaf && Pushes(decl[k])
  {
    if decl != [] {
      var front, n := decl[..|decl| - 1], |decl| - 1;
      HintsAre(p, front, leaf);
      if leaf == LeafOf(p, decl[n]) {
        assert decl[n] == decl[|decl| - 1];
      }
      assert forall k | 0 <= k < n :: front[k] == decl[k];
    }
  }

  lemma {:induction false} HintsHave(p: Paths, decl: seq<Row>, k: nat)
    requires k < |decl|
    ensures OptsOf(decl[k]).quant.Some? ==> LeafOf(p, decl[k]) in QuantHints(p, decl)
    ensures OptsOf(decl[k]).grid.Some? ==> LeafOf(p, decl[k]) in Grids(p, decl)
    ensures Pushes(decl[k]) ==> LeafOf(p, decl[k]) in Pushed(p, decl)
  {
    if k < |decl| - 1 {
      HintsHave(p, decl[..|decl| - 1], k);
    }
  }

  function DeclaredQuant(o: Opts): byte {
    if o.quant.Some? then QuantFromName(o.quant.value) else QUANT_AUTO
  }

  function DeclaredGrid(o: Opts): real {
    if o.grid.Some? then o.grid.value.value else 0.0
  }

  /** The names are those the check knows, and each has its own code; any other is automatic. */
  lemma CodesOfNames(name: string)
    ensures QuantFromName("angle16") == TAG_ANGLE16 && QuantFromName("angle8") == TAG_ANGLE8
    ensures QuantFromName("half") == TAG_HALF && QuantFromName("vec3_half") == TAG_VEC3_HALF
    ensures QuantFromName("time_delta") == TAG_TIME_DELTA
    ensures QuantFromName(name) == QUANT_AUTO <==> name !in QUANT_HINTS
  {
    assert "angle16"[5] != "angle8"[5];
    assert forall k | 0 <= k < 5 :: QUANT_HINTS[k] in QUANT_HINTS;
  }

  /** What a row declared is what its own path reads back. */
  lemma RowReadsBack(p: Paths, decl: seq<Row>, k: nat)
    requires k < |decl| && forall i | 0 <= i < |decl| :: Sound(p, decl, i)
    ensures var path, o := p.text(decl[k].key), OptsOf(decl[k]);
            && QuantOf(p, QuantHints(p, decl), path) == DeclaredQuant(o)
            && GridOf(p, Grids(p, decl), path) == DeclaredGrid(o)
            && PushOf(p, Pushed(p, decl), path) == (Pushes(decl[k]) && SlotLeaf(p, path) != "")
  {
    var leaf := LeafOf(p, decl[k]);
    assert Sound(p, decl, k);
    assert SlotLeaf(p, p.text(decl[k].key)) == leaf;
    HintsAre(p, decl, leaf);
    HintsHave(p, decl, k);
    forall i | 0 <= i < |decl| && i != k && LeafOf(p, decl[i]) == leaf
      ensures !OptsOf(decl[i]).HasHint() && !OptsOf(decl[k]).HasHint()
    {
      if i < k { SharersHaveNone(p, decl, i, k); } else { SharersHaveNone(p, decl, k, i); }
    }
  }

  function ConfigProblems(p: Paths, decl: seq<Row>, cfg: Option<seq<Property>>): seq<Problem> {
    if cfg.None? then [] else UndeclaredIn(p, decl, cfg.value) + NotReplicatedIn(p, decl, cfg.value, |decl|)
  }

  /** Each declared path once, in the order of the table. */
  function NotReplicatedIn(p: Paths, decl: seq<Row>, cfg: seq<Property>, n: nat): seq<Problem>
    requires n <= |decl|
  {
    if n == 0 then []
    else
      var path := p.text(decl[n - 1].key);
      NotReplicatedIn(p, decl, cfg, n - 1)
      + If(path !in Declared(p, decl[..n - 1]) && !Configured(cfg, path), NotReplicated(path))
  }

  predicate Configured(cfg: seq<Property>, path: string) {
    exists k | 0 <= k < |cfg| :: cfg[k].path == path
  }

  function Problems(p: Paths, decl: seq<Row>, opts: seq<string>, cfg: Option<seq<Property>>): seq<Problem> {
    Flat(TableParts(p, decl)) + SyncProblems(opts) + ConfigProblems(p, decl, cfg)
  }

  lemma {:induction false} NoneUndeclared(p: Paths, decl: seq<Row>, cfg: seq<Property>, k: nat)
    requires k < |cfg| && UndeclaredIn(p, decl, cfg) == []
    ensures cfg[k].path in Declared(p, decl)
  {
    if k < |cfg| - 1 {
      NoneUndeclared(p, decl, cfg[..|cfg| - 1], k);
    }
  }

  lemma {:induction false} SlotIsConfigured(cfg: seq<Property>, s: nat) returns (k: nat)
    requires s < |Slots(cfg)|
    ensures k < |cfg| && cfg[k].streamed && cfg[k].path == Slots(cfg)[s]
  {
    if s < |Slots(cfg[..|cfg| - 1])| {
      k := SlotIsConfigured(cfg[..|cfg| - 1], s);
    } else {
      k := |cfg| - 1;
    }
  }

  lemma NoParts(a: seq<Problem>, b: seq<Problem>, c: seq<Problem>, d: seq<Problem>)
    requires a + b + (c + d) == []
    ensures a == [] && b == [] && c == [] && d == []
  {
  }

  /** A table the check finds nothing wrong with loses nothing: every streamed slot is declared, and the
      hint, grid and push read back by leaf are the ones its own row declared, whichever row that is. */
  lemma CleanTableLosesNothing(p: Paths, decl: seq<Row>, opts: seq<string>, cfg: seq<Property>, s: nat)
    requires Problems(p, decl, opts, Some(cfg)) == [] && s < |Slots(cfg)|
    ensures var path := Slots(cfg)[s];
            && path in Declared(p, decl)
            && forall k | 0 <= k < |decl| && p.text(decl[k].key) == path ::
                 && QuantOf(p, QuantHints(p, decl), path) == DeclaredQuant(OptsOf(decl[k]))
                 && GridOf(p, Grids(p, decl), path) == DeclaredGrid(OptsOf(decl[k]))
                 && PushOf(p, Pushed(p, decl), path) == (Pushes(decl[k]) && SlotLeaf(p, path) != "")
  {
    NoParts(Flat(TableParts(p, decl)), SyncProblems(opts), UndeclaredIn(p, decl, cfg),
        NotReplicatedIn(p, decl, cfg, |decl|));
    CleanIsSound(p, decl);
    var i := SlotIsConfigured(cfg, s);
    NoneUndeclared(p, decl, cfg, i);
    forall k | 0 <= k < |decl| && p.text(decl[k].key) == Slots(cfg)[s]
      ensures QuantOf(p, QuantHints(p, decl), Slots(cfg)[s]) == DeclaredQuant(OptsOf(decl[k]))
      ensures GridOf(p, Grids(p, decl), Slots(cfg)[s]) == DeclaredGrid(OptsOf(decl[k]))
      ensures PushOf(p, Pushed(p, decl), Slots(cfg)[s]) == (Pushes(decl[k]) && SlotLeaf(p, Slots(cfg)[s]) != "")
    {
      RowReadsBack(p, decl, k);
    }
  }

  // --- What is reported ---

  /** Row k names a property and has a table of options. */
  predicate Tabled(p: Paths, decl: seq<Row>, k: nat) {
    k < |decl| && p.subnames(p.text(decl[k].key)) != [] && decl[k].opts.Some?
  }

  /** The rows share a leaf. */
  predicate SameLeaf(p: Paths, decl: seq<Row>, i: nat, k: nat) {
    && Tabled(p, decl, i) && Tabled(p, decl, k)
    && var a, b := p.subnames(p.text(decl[i].key)), p.subnames(p.text(decl[k].key));
       a[|a| - 1] == b[|b| - 1]
  }

  /** What each line of the report says. */
  ghost predicate IsSo(p: Paths, decl: seq<Row>, opts: seq<string>, cfg: Option<seq<Property>>, x: Problem) {
    match x
    case NoProperty(k) => k < |decl| && p.subnames(p.text(decl[k].key)) == []
    case NotATable(k) => k < |decl| && p.subnames(p.text(decl[k].key)) != [] && decl[k].opts.None?
    case UnknownOption(k, name) => Tabled(p, decl, k) && name in decl[k].opts.value.unknown
    case UnknownQuant(k) =>
      && Tabled(p, decl, k) && decl[k].opts.value.quant.Some?
      && decl[k].opts.value.quant.value !in ["angle8", "angle16", "half", "vec3_half", "time_delta"]
    case BadGrid(k) =>
      && Tabled(p, decl, k) && decl[k].opts.value.grid.Some?
      && (!decl[k].opts.value.grid.value.isNumber || decl[k].opts.value.grid.value.value <= 0.0)
    case GridAndQuant(k) => Tabled(p, decl, k) && decl[k].opts.value.grid.Some? && decl[k].opts.value.quant.Some?
    case NonBoolPush(k) =>
      Tabled(p, decl, k) && decl[k].opts.value.push.Some? && !decl[k].opts.value.push.value.isBool
    case BadMode(k) =>
      && Tabled(p, decl, k) && decl[k].opts.value.mode.Some?
      && decl[k].opts.value.mode.value != 0 && decl[k].opts.value.mode.value != 1 && decl[k].opts.value.mode.value != 2
    case SharedLeaf(i, k) =>
      && i < k && SameLeaf(p, decl, i, k) && (forall j: nat | j < i :: !SameLeaf(p, decl, j, k))
      && exists o | o in [decl[i].opts.value, decl[k].opts.value] :: o.(quant := None, grid := None, push := None) != o
    case UnknownSyncOption(name) => name in opts && name != "priority"
    case Undeclared(path) => cfg.Some? && Configured(cfg.value, path) && !Declares(p, decl, path)
    case NotReplicated(path) => cfg.Some? && Declares(p, decl, path) && !Configured(cfg.value, path)
  }

  predicate OfTheTable(x: Problem) {
    !x.UnknownSyncOption? && !x.Undeclared? && !x.NotReplicated?
  }

  predicate Declares(p: Paths, decl: seq<Row>, path: string) {
    exists k | 0 <= k < |decl| :: p.text(decl[k].key) == path
  }

  lemma {:induction false} InFlat(parts: seq<seq<Problem>>, x: Problem)
    ensures x in Flat(parts) <==> exists i :: 0 <= i < |parts| && x in parts[i]
  {
    if parts != [] {
      var n := |parts| - 1;
      InFlat(parts[..n], x);
      assert forall i | 0 <= i < n :: parts[..n][i] == parts[i];
    }
  }

  lemma {:induction false} InUnknown(k: nat, names: seq<string>, x: Problem)
    ensures x in UnknownOptions(k, names) <==> x.UnknownOption? && x.row == k && x.option in names
  {
    if names != [] {
      InUnknown(k, names[..|names| - 1], x);
      assert names == names[..|names| - 1] + [names[|names| - 1]];
    }
  }

  lemma InOptions(k: nat, o: Opts, x: Problem)
    ensures x in OptionProblems(k, o) <==>
              || (x.UnknownOption? && x.row == k && x.option in o.unknown)
              || (x == UnknownQuant(k) && o.quant.Some? && o.quant.value !in QUANT_HINTS)
              || (x == BadGrid(k) && o.grid.Some? && (!o.grid.value.isNumber || o.grid.value.value <= 0.0))
              || (x == GridAndQuant(k) && o.grid.Some? && o.quant.Some?)
              || (x == NonBoolPush(k) && o.push.Some? && !o.push.value.isBool)
              || (x == BadMode(k) && o.mode.Some? && o.mode.value !in [0, 1, 2])
  {
    var parts := OptionParts(k, o);
    InFlat(parts, x);
    InUnknown(k, o.unknown, x);
    assert (exists i :: 0 <= i < |parts| && x in parts[i]) <==>
      (x in parts[0] || x in parts[1] || x in parts[2] || x in parts[3] || x in parts[4] || x in parts[5]);
  }

  lemma {:induction false} FirstOwner(p: Paths, decl: seq<Row>, k: nat, i: nat, n: nat)
    requires n <= k && Tabled(p, decl, k)
    ensures Owner(p, decl, n, LeafOf(p, decl[k])) == Some(i) <==>
              i < n && SameLeaf(p, decl, i, k) && forall j: nat | j < i :: !SameLeaf(p, decl, j, k)
    decreases n
  {
    if n > 0 {
      FirstOwner(p, decl, k, i, n - 1);
      assert forall j: nat | j < n :: SameLeaf(p, decl, j, k) <==>
          Claims(p, decl[j]) && LeafOf(p, decl[j]) == LeafOf(p, decl[k]);
    }
  }

  lemma HintedIs(o: Opts)
    ensures o.HasHint() <==> o.(quant := None, grid := None, push := None) != o
  {
  }

  lemma InRow(p: Paths, decl: seq<Row>, opts: seq<string>, cfg: Option<seq<Property>>, k: nat, x: Problem)
    requires k < |decl|
    ensures x in RowProblems(p, decl, k) <==>
              IsSo(p, decl, opts, cfg, x) && OfTheTable(x) && x.row == k
  {
    if Tabled(p, decl, k) {
      InOptions(k, decl[k].opts.value, x);
      HintedIs(decl[k].opts.value);
      var owner := Owner(p, decl, k, LeafOf(p, decl[k]));
      FirstOwner(p, decl, k, if x.SharedLeaf? then x.owner else 0, k);
      if owner.Some? {
        FirstOwner(p, decl, k, owner.value, k);
        HintedIs(decl[owner.value].opts.value);
      }
    }
  }

  lemma InTable(p: Paths, decl: seq<Row>, opts: seq<string>, cfg: Option<seq<Property>>, x: Problem)
    ensures x in Flat(TableParts(p, decl)) <==>
              IsSo(p, decl, opts, cfg, x) && OfTheTable(x)
  {
    hide IsSo;
    hide RowProblems;
    var parts := TableParts(p, decl);
    InFlat(parts, x);
    forall k: nat | k < |decl|
      ensures x in parts[k] <==>
              IsSo(p, decl, opts, cfg, x) && OfTheTable(x) && x.row == k
    {
      InRow(p, decl, opts, cfg, k, x);
    }
    if IsSo(p, decl, opts, cfg, x) && OfTheTable(x) {
      RowIsThere(p, decl, opts, cfg, x);
      assert x in parts[x.row];
    }
  }

  lemma RowIsThere(p: Paths, decl: seq<Row>, opts: seq<string>, cfg: Option<seq<Property>>, x: Problem)
    requires IsSo(p, decl, opts, cfg, x) && OfTheTable(x)
    ensures x.row < |decl|
  {
  }

  lemma {:induction false} InSync(opts: seq<string>, x: Problem)
    ensures x in SyncProblems(opts) <==> x.UnknownSyncOption? && x.option in opts && x.option != "priority"
  {
    if opts != [] {
      InSync(opts[..|opts| - 1], x);
      assert opts == opts[..|opts| - 1] + [opts[|opts| - 1]];
    }
  }

  lemma DeclaredAre(p: Paths, decl: seq<Row>)
    ensures forall path :: path in Declared(p, decl) <==> Declares(p, decl, path)
  {
  }

  lemma {:induction false} InUndeclared(p: Paths, decl: seq<Row>, cfg: seq<Property>, x: Problem)
    ensures x in UndeclaredIn(p, decl, cfg) <==>
              x.Undeclared? && Configured(cfg, x.path) && !Declares(p, decl, x.path)
  {
    DeclaredAre(p, decl);
    if cfg != [] {
      var n := |cfg| - 1;
      InUndeclared(p, decl, cfg[..n], x);
      OneMoreConfigured(cfg, n);
      assert cfg[..n + 1] == cfg;
    }
  }

  lemma {:induction false} InNotReplicated(p: Paths, decl: seq<Row>, cfg: seq<Property>, n: nat, x: Problem)
    requires n <= |decl|
    ensures x in NotReplicatedIn(p, decl, cfg, n) <==>
              x.NotReplicated? && x.path in Declared(p, decl[..n]) && !Configured(cfg, x.path)
  {
    if n > 0 {
      InNotReplicated(p, decl, cfg, n - 1, x);
      assert forall path :: path in Declared(p, decl[..n]) <==>
          path in Declared(p, decl[..n - 1]) || path == p.text(decl[n - 1].key) by {
        assert forall k | 0 <= k < n - 1 :: decl[..n][k] == decl[..n - 1][k];
        assert decl[..n][n - 1] == decl[n - 1];
      }
    }
  }

  /** A line is in the report exactly when what it says is so. */
  lemma ReportedExactly(p: Paths, decl: seq<Row>, opts: seq<string>, cfg: Option<seq<Property>>, x: Problem)
    ensures x in Problems(p, decl, opts, cfg) <==> IsSo(p, decl, opts, cfg, x)
  {
    hide Flat;
    hide TableParts;
    hide SyncProblems;
    hide UndeclaredIn;
    hide NotReplicatedIn;
    InTable(p, decl, opts, cfg, x);
    InSync(opts, x);
    if cfg.Some? {
      InUndeclared(p, decl, cfg.value, x);
      InNotReplicated(p, decl, cfg.value, |decl|, x);
      assert decl[..|decl|] == decl;
      DeclaredAre(p, decl);
    }
  }

  /** A row with everything wrong is told of in this order. */
  lemma LinesInOrder(k: nat)
    ensures OptionProblems(k, Opts(Some("quarter"), Some(Grid(false, 1.0)), Some(Push(false, true)), Some(3), ["rate"]))
            == [UnknownOption(k, "rate"), UnknownQuant(k), BadGrid(k), GridAndQuant(k), NonBoolPush(k), BadMode(k)]
  {
    var o := Opts(Some("quarter"), Some(Grid(false, 1.0)), Some(Push(false, true)), Some(3), ["rate"]);
    var parts := OptionParts(k, o);
    assert forall i | 0 <= i < 5 :: QUANT_HINTS[i] != "quarter";
    assert ["rate"][..0] == [];
    assert parts[..5] == parts[..|parts| - 1] && parts[..5][..4] == parts[..4] && parts[..4][..3] == parts[..3];
    assert parts[..3][..2] == parts[..2] && parts[..2][..1] == parts[..1] && parts[..1][..0] == [];
    assert Flat(parts[..1]) == parts[0] && Flat(parts[..2]) == parts[0] + parts[1];
    assert Flat(parts[..3]) == parts[0] + parts[1] + parts[2];
    assert Flat(parts[..4]) == parts[0] + parts[1] + parts[2] + parts[3];
    assert Flat(parts[..5]) == parts[0] + parts[1] + parts[2] + parts[3] + parts[4];
    assert UnknownOptions(k, ["rate"]) == UnknownOptions(k, []) + [UnknownOption(k, "rate")];
    assert Flat(parts) == parts[0] + parts[1] + parts[2] + parts[3] + parts[4] + parts[5];
  }

  // --- The same, step by step ---

  method BuildQuantHints(p: Paths, decl: seq<Row>) returns (out: map<string, string>)
    ensures out == QuantHints(p, decl)
  {
    out := map[];
    assert decl[..|decl|] == decl && decl[..0] == [];
    for k := 0 to |decl|
      invariant out == QuantHints(p, decl[..k])
    {
      assert decl[..k + 1][..k] == decl[..k];
      var o := OptsOf(decl[k]);
      if o.quant.Some? {
        out := out[LeafOf(p, decl[k]) := o.quant.value];
      }
    }
  }

  method BuildGrids(p: Paths, decl: seq<Row>) returns (out: map<string, real>)
    ensures out == Grids(p, decl)
  {
    out := map[];
    assert decl[..|decl|] == decl && decl[..0] == [];
    for k := 0 to |decl|
      invariant out == Grids(p, decl[..k])
    {
      assert decl[..k + 1][..k] == decl[..k];
      var o := OptsOf(decl[k]);
      if o.grid.Some? {
        out := out[LeafOf(p, decl[k]) := o.grid.value.value];
      }
    }
  }

  method BuildPushed(p: Paths, decl: seq<Row>) returns (out: seq<string>)
    ensures out == Pushed(p, decl)
  {
    out := [];
    assert decl[..|decl|] == decl && decl[..0] == [];
    for k := 0 to |decl|
      invariant out == Pushed(p, decl[..k])
    {
      assert decl[..k + 1][..k] == decl[..k];
      if Pushes(decl[k]) {
        out := out + [LeafOf(p, decl[k])];
      }
    }
  }

  lemma {:induction false} SlotsAreFull(cfg: seq<Property>, k: nat)
    requires k <= |cfg| && |Slots(cfg[..k])| == MAX_SLOTS
    ensures Slots(cfg) == Slots(cfg[..k])
    decreases |cfg| - k
  {
    if k == |cfg| {
      assert cfg[..k] == cfg;
    } else {
      assert cfg[..k + 1][..k] == cfg[..k];
      SlotsAreFull(cfg, k + 1);
    }
  }

  function Streamed(cfg: seq<Property>): seq<string> {
    if cfg == [] then []
    else if cfg[|cfg| - 1].streamed then Streamed(cfg[..|cfg| - 1]) + [cfg[|cfg| - 1].path]
    else Streamed(cfg[..|cfg| - 1])
  }

  /** A slot for every streamed property, in the config's order, as far as the mask's 32 go. */
  lemma {:induction false} SlotsAreStreamed(cfg: seq<Property>)
    ensures Slots(cfg) == if |Streamed(cfg)| <= 32 then Streamed(cfg) else Streamed(cfg)[..32]
  {
    if cfg != [] {
      SlotsAreStreamed(cfg[..|cfg| - 1]);
    }
  }

  method GetSyncSlots(cfg: seq<Property>) returns (paths: seq<string>)
    ensures paths == Slots(cfg)
  {
    paths := [];
    var k := 0;
    assert cfg[..0] == [];
    while k < |cfg| && |paths| < MAX_SLOTS
      invariant k <= |cfg| && paths == Slots(cfg[..k])
    {
      assert cfg[..k + 1][..k] == cfg[..k];
      if cfg[k].streamed {
        paths := paths + [cfg[k].path];
      }
      k := k + 1;
    }
    if k < |cfg| {
      SlotsAreFull(cfg, k);
    } else {
      assert cfg[..k] == cfg;
    }
  }

  /** Each slot's quantization, or nothing at all when every one is automatic. */
  method ReadQuant(p: Paths, hints: map<string, string>, cfg: seq<Property>) returns (quant: seq<byte>)
    ensures quant == [] <==> forall s | 0 <= s < |Slots(cfg)| :: QuantOf(p, hints, Slots(cfg)[s]) == QUANT_AUTO
    ensures quant != [] ==> |quant| == |Slots(cfg)|
    ensures forall s | 0 <= s < |Slots(cfg)| ::
            (if s < |quant| then quant[s] else QUANT_AUTO) == QuantOf(p, hints, Slots(cfg)[s])
  {
    if hints == map[] {
      return [];
    }
    var slots := GetSyncSlots(cfg);
    var q: seq<byte> := [];
    var any := false;
    for s := 0 to |slots|
      invariant |q| == s
      invariant forall k | 0 <= k < s :: q[k] == QuantOf(p, hints, slots[k])
      invariant any <==> exists k :: 0 <= k < s && q[k] != QUANT_AUTO
    {
      var code := QuantOf(p, hints, slots[s]);
      q := q + [code];
      if code != QUANT_AUTO {
        any := true;
      }
    }
    quant := if any then q else [];
  }

  /** Each slot's push flag, or nothing at all when none is pushed. */
  method ReadPush(p: Paths, names: seq<string>, cfg: seq<Property>) returns (push: seq<bool>)
    ensures push == [] <==> forall s | 0 <= s < |Slots(cfg)| :: !PushOf(p, names, Slots(cfg)[s])
    ensures push != [] ==> |push| == |Slots(cfg)|
    ensures forall s | 0 <= s < |Slots(cfg)| :: (s < |push| && push[s]) == PushOf(p, names, Slots(cfg)[s])
  {
    var slots := GetSyncSlots(cfg);
    var q: seq<bool> := [];
    var any := false;
    for s := 0 to |slots|
      invariant |q| == s
      invariant forall k | 0 <= k < s :: q[k] == PushOf(p, names, slots[k])
      invariant any <==> exists k :: 0 <= k < s && q[k]
    {
      q := q + [PushOf(p, names, slots[s])];
      any := any || q[s];
    }
    push := if any then q else [];
  }

  method CheckOptions(k: nat, o: Opts) returns (problems: seq<Problem>)
    ensures problems == OptionProblems(k, o)
  {
    ghost var parts := OptionParts(k, o);
    problems := UnknownOptions(k, o.unknown);
    assert parts[..1][..0] == [];
    problems := Noted(problems, parts, 1, o.quant.Some? && o.quant.value !in QUANT_HINTS, UnknownQuant(k));
    problems := Noted(problems, parts, 2, o.grid.Some?
        && (!o.grid.value.isNumber || o.grid.value.value <= 0.0), BadGrid(k));
    problems := Noted(problems, parts, 3, o.grid.Some? && o.quant.Some?, GridAndQuant(k));
    problems := Noted(problems, parts, 4, o.push.Some? && !o.push.value.isBool, NonBoolPush(k));
    problems := Noted(problems, parts, 5, o.mode.Some? && o.mode.value !in [0, 1, 2], BadMode(k));
    assert parts[..6] == parts;
  }

  /** One check: its line, if it fails. */
  method Noted(before: seq<Problem>, ghost parts: seq<seq<Problem>>, ghost n: nat, fails: bool, problem: Problem)
      returns (problems: seq<Problem>)
    requires n < |parts| && before == Flat(parts[..n]) && parts[n] == If(fails, problem)
    ensures problems == Flat(parts[..n + 1])
  {
    problems := if fails then before + [problem] else before;
    assert parts[..n + 1][..n] == parts[..n];
  }

  method CheckTable(p: Paths, decl: seq<Row>) returns (problems: seq<Problem>)
    ensures problems == Flat(TableParts(p, decl))
  {
    problems := [];
    var owners: map<string, nat> := map[];
    ghost var parts := TableParts(p, decl);
    assert parts[..|parts|] == parts && parts[..0] == [];
    for k := 0 to |decl|
      invariant problems == Flat(parts[..k])
      invariant forall leaf :: leaf in owners <==> Owner(p, decl, k, leaf).Some?
      invariant forall leaf | leaf in owners :: Owner(p, decl, k, leaf) == Some(owners[leaf])
    {
      assert parts[..k + 1][..k] == parts[..k] && parts[k] == RowProblems(p, decl, k);
      if p.subnames(p.text(decl[k].key)) == [] {
        problems := problems + [NoProperty(k)];
        continue;
      }
      if decl[k].opts.None? {
        problems := problems + [NotATable(k)];
        continue;
      }
      var o := decl[k].opts.value;
      var found := CheckOptions(k, o);
      var leaf := LeafOf(p, decl[k]);
      if leaf in owners {
        if o.HasHint() || OptsOf(decl[owners[leaf]]).HasHint() {
          found := found + [SharedLeaf(owners[leaf], k)];
        }
      } else {
        owners := owners[leaf := k];
      }
      problems := problems + found;
    }
  }

  method CheckSync(opts: seq<string>) returns (problems: seq<Problem>)
    ensures problems == SyncProblems(opts)
  {
    problems := [];
    assert opts[..|opts|] == opts && opts[..0] == [];
    for k := 0 to |opts|
      invariant problems == SyncProblems(opts[..k])
    {
      assert opts[..k + 1][..k] == opts[..k];
      if opts[k] != "priority" {
        problems := problems + [UnknownSyncOption(opts[k])];
      }
    }
  }

  /** The table's paths, each the first time it comes. */
  method CollectDeclared(p: Paths, decl: seq<Row>) returns (declared: set<string>, order: seq<string>)
    ensures declared == Declared(p, decl)
    ensures forall cfg: seq<Property> :: NotReplicatedIn(p, decl, cfg, |decl|) == NotIn(cfg, order)
  {
    declared, order := {}, [];
    assert decl[..|decl|] == decl;
    for k := 0 to |decl|
      invariant declared == Declared(p, decl[..k])
      invariant forall cfg: seq<Property> :: NotReplicatedIn(p, decl, cfg, k) == NotIn(cfg, order)
    {
      var path := p.text(decl[k].key);
      assert Declared(p, decl[..k + 1]) == Declared(p, decl[..k]) + {path} by {
        assert decl[..k + 1][k] == decl[k];
        assert forall i | 0 <= i < k :: decl[..k + 1][i] == decl[..k][i];
      }
      if path !in declared {
        assert (order + [path])[..|order|] == order;
        order := order + [path];
      }
      declared := declared + {path};
    }
  }

  function NotIn(cfg: seq<Property>, paths: seq<string>): seq<Problem> {
    if paths == [] then []
    else NotIn(cfg, paths[..|paths| - 1]) + If(!Configured(cfg, paths[|paths| - 1]), NotReplicated(paths[|paths| - 1]))
  }

  method CheckConfig(p: Paths, decl: seq<Row>, cfg: seq<Property>) returns (problems: seq<Problem>)
    ensures problems == ConfigProblems(p, decl, Some(cfg))
  {
    var declared, order := CollectDeclared(p, decl);
    var inConfig: set<string> := {};
    problems := [];
    assert cfg[..|cfg|] == cfg && cfg[..0] == [];
    for k := 0 to |cfg|
      invariant forall path :: path in inConfig <==> Configured(cfg[..k], path)
      invariant problems == UndeclaredIn(p, decl, cfg[..k])
    {
      assert cfg[..k + 1][..k] == cfg[..k];
      OneMoreConfigured(cfg, k);
      inConfig := inConfig + {cfg[k].path};
      if cfg[k].path !in declared {
        problems := problems + [Undeclared(cfg[k].path)];
      }
    }
    ghost var undeclared := problems;
    assert order[..|order|] == order && order[..0] == [];
    for k := 0 to |order|
      invariant problems == undeclared + NotIn(cfg, order[..k])
    {
      assert order[..k + 1][..k] == order[..k];
      if order[k] !in inConfig {
        problems := problems + [NotReplicated(order[k])];
      }
    }
  }

  lemma OneMoreConfigured(cfg: seq<Property>, k: nat)
    requires k < |cfg|
    ensures forall path :: Configured(cfg[..k + 1], path) <==> Configured(cfg[..k], path) || path == cfg[k].path
  {
    forall path
      ensures Configured(cfg[..k + 1], path) <==> Configured(cfg[..k], path) || path == cfg[k].path
    {
      if Configured(cfg[..k], path) {
        var i :| 0 <= i < k && cfg[..k][i].path == path;
        assert cfg[..k + 1][i].path == path;
      }
      if path == cfg[k].path {
        assert cfg[..k + 1][k].path == path;
      }
    }
  }

  /** Everything wrong with a table, against the config it is for if there is one. */
  method Validate(p: Paths, decl: seq<Row>, opts: seq<string>, cfg: Option<seq<Property>>)
      returns (problems: seq<Problem>)
    ensures problems == Problems(p, decl, opts, cfg)
  {
    var table := CheckTable(p, decl);
    var sync := CheckSync(opts);
    problems := table + sync;
    if cfg.Some? {
      var config := CheckConfig(p, decl, cfg.value);
      problems := problems + config;
    }
  }
}
