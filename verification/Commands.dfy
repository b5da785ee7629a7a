/** Calls that ride the uplink as commands: a call's arguments become a command's fields at the client
    and the same call again at the server. The core carries the fields across as they are. */
module Commands {
  import opened Options
  import opened Wire
  import opened Floats
  import opened Values
  import opened Args

  /** How a field maps back to its argument. */
  datatype Form = IntForm | FloatForm | BoolForm | BytesForm | VariantForm

  datatype Field = Field(i: int64, f: Double, data: bytes)

  const NoField := Field(0, Finite(0.0), [])

  /** A stream's method: a field for each argument, or for each entry of one Dictionary. */
  datatype Signature = Signature(forms: seq<Form>, names: seq<bytes>, table: bool) {
    /** A table's names are a Dictionary's keys. */
    predicate Proper() {
      table ==> |names| == |forms| && Distinct(names)
    }
  }

  predicate Distinct(names: seq<bytes>) {
    forall i, j | 0 <= i < j < |names| :: names[i] != names[j]
  }

  predicate IsNumber(v: Variant) {
    v.Int? || v.Float? || v.Bool?
  }

  // --- At the client ---

  predicate Takes(form: Form, v: Variant) {
    match form
    case VariantForm => true
    case BytesForm => v.Blob?
    case _ => IsNumber(v)
  }

  function FieldOf(e: Engine, form: Form, v: Variant): Field
    requires Takes(form, v)
  {
    match form
    case IntForm => NoField.(i := e.asInt(v))
    case FloatForm => NoField.(f := e.Single(v))
    case BoolForm => NoField.(i := if e.asBool(v) then 1 else 0)
    case BytesForm => NoField.(data := v.data)
    case VariantForm => NoField.(data := ArgCode(e, v))
  }

  /** A table's entries in the order of its names, if there is one for each. */
  function Entries(names: seq<bytes>, fields: map<bytes, Variant>): Option<seq<Variant>> {
    if names == [] then Some([])
    else if names[|names| - 1] !in fields then None
    else
      match Entries(names[..|names| - 1], fields)
      case None => None
      case Some(front) => Some(front + [fields[names[|names| - 1]]])
  }

  /** The values the fields are made from, one for each. */
  function Listed(sig: Signature, args: seq<Variant>): Option<seq<Variant>> {
    if sig.table then
      if |args| != 1 || !args[0].Dict? then None
      else
        var entries := Entries(sig.names, args[0].fields);
        if entries.Some? && |args[0].fields| == |sig.names| then entries else None
    else if |args| == |sig.forms| then Some(args)
    else None
  }

  predicate AllTaken(forms: seq<Form>, values: seq<Variant>) {
    |values| == |forms| && forall k | 0 <= k < |forms| :: Takes(forms[k], values[k])
  }

  function Fields(e: Engine, forms: seq<Form>, values: seq<Variant>): seq<Field>
    requires AllTaken(forms, values)
  {
    seq(|forms|, k requires 0 <= k < |forms| => FieldOf(e, forms[k], values[k]))
  }

  function CommandOf(e: Engine, sig: Signature, args: seq<Variant>): Option<seq<Field>> {
    match Listed(sig, args)
    case None => None
    case Some(values) => if AllTaken(sig.forms, values) then Some(Fields(e, sig.forms, values)) else None
  }

  // --- At the server ---

  function ArgOf(e: Engine, form: Form, f: Field): Option<Variant> {
    match form
    case IntForm => Some(Int(f.i))
    case FloatForm => Some(Float(f.f))
    case BoolForm => Some(Bool(f.i != 0))
    case BytesForm => Some(Blob(f.data))
    case VariantForm =>
      match ReadArg(e, f.data)
      case Truncated => None
      case Parsed(v, _) => Some(v)
  }

  function ArgsOf(e: Engine, forms: seq<Form>, command: seq<Field>): (args: Option<seq<Variant>>)
    requires |forms| == |command|
    ensures args.Some? ==> |args.value| == |forms|
  {
    if forms == [] then Some([])
    else
      var n := |forms| - 1;
      match ArgsOf(e, forms[..n], command[..n])
      case None => None
      case Some(front) =>
        match ArgOf(e, forms[n], command[n])
        case None => None
        case Some(v) => Some(front + [v])
  }

  function Rebuilt(names: seq<bytes>, values: seq<Variant>): map<bytes, Variant>
    requires |names| == |values|
  {
    if names == [] then map[]
    else Rebuilt(names[..|names| - 1], values[..|names| - 1])[names[|names| - 1] := values[|names| - 1]]
  }

  /** The arguments the method is called with, if it is called. */
  function Delivered(e: Engine, sig: Signature, command: seq<Field>): Option<seq<Variant>>
    requires sig.Proper()
  {
    if |command| != |sig.forms| then None
    else
      match ArgsOf(e, sig.forms, command)
      case None => None
      case Some(values) => Some(if sig.table then [Dict(Rebuilt(sig.names, values))] else values)
  }

  // --- What comes through ---

  /** A value as its declared form lets it through. */
  function Landed(e: Engine, form: Form, v: Variant): Variant {
    match form
    case IntForm => Int(e.asInt(v))
    case FloatForm => Float(e.Single(v))
    case BoolForm => Bool(e.asBool(v))
    case _ => v
  }

  function AllLanded(e: Engine, forms: seq<Form>, values: seq<Variant>): seq<Variant>
    requires |forms| == |values|
  {
    seq(|forms|, k requires 0 <= k < |forms| => Landed(e, forms[k], values[k]))
  }

  /** A call fits: as many arguments as fields, or one Dictionary with exactly the table's keys; and each
      value is one its form takes. */
  ghost predicate Fits(sig: Signature, args: seq<Variant>)
    requires sig.Proper()
  {
    if sig.table then
      && |args| == 1 && args[0].Dict?
      && (forall key :: key in args[0].fields <==> key in sig.names)
      && forall k | 0 <= k < |sig.forms| :: Takes(sig.forms[k], args[0].fields[sig.names[k]])
    else AllTaken(sig.forms, args)
  }

  lemma {:induction false} EntriesAre(names: seq<bytes>, fields: map<bytes, Variant>)
    ensures Entries(names, fields).Some? <==> forall k | 0 <= k < |names| :: names[k] in fields
    ensures Entries(names, fields).Some? ==>
              |Entries(names, fields).value| == |names|
              && forall k | 0 <= k < |names| :: Entries(names, fields).value[k] == fields[names[k]]
  {
    if names != [] {
      var n := |names| - 1;
      EntriesAre(names[..n], fields);
      if names[n] in fields {
        assert forall k | 0 <= k < n :: names[..n][k] == names[k];
      }
    }
  }

  /** As many distinct names as there are keys, all of them keys: then they are the keys. */
  lemma NamesAreKeys(names: seq<bytes>, fields: map<bytes, Variant>)
    requires Distinct(names) && forall k | 0 <= k < |names| :: names[k] in fields
    ensures |fields| == |names| <==> forall key :: key in fields <==> key in names
  {
    var named := set key | key in names;
    NamesCount(names);
    assert named <= fields.Keys;
    assert (forall key :: key in fields <==> key in names) ==> named == fields.Keys;
    if |fields| == |names| {
      SubsetOfSameSize(named, fields.Keys);
    }
  }

  lemma {:induction false} NamesCount(names: seq<bytes>)
    requires Distinct(names)
    ensures |set key | key in names| == |names|
  {
    if names != [] {
      var front, last := names[..|names| - 1], names[|names| - 1];
      NamesCount(front);
      assert (set key | key in names) == (set key | key in front) + {last};
    }
  }

  lemma SubsetOfSameSize(a: set<bytes>, b: set<bytes>)
    requires a <= b && |a| == |b|
    ensures a == b
  {
    assert |b - a| == |b| - |a|;
  }

  /** A call goes as a command if and only if it fits; any other is refused. */
  lemma RefusedUnlessFits(e: Engine, sig: Signature, args: seq<Variant>)
    requires sig.Proper()
    ensures CommandOf(e, sig, args).Some? <==> Fits(sig, args)
  {
    if sig.table && |args| == 1 && args[0].Dict? {
      var fields := args[0].fields;
      EntriesAre(sig.names, fields);
      if forall k | 0 <= k < |sig.names| :: sig.names[k] in fields {
        NamesAreKeys(sig.names, fields);
      }
      assert forall k | 0 <= k < |sig.names| :: sig.names[k] in sig.names;
    }
  }

  /** What a value must be for its form to carry it: a Variant one, something the wire does. */
  ghost predicate Carriable(e: Engine, form: Form, v: Variant) {
    Takes(form, v) && (form.VariantForm? ==> Passable(e, v))
  }

  ghost predicate AllCarriable(e: Engine, forms: seq<Form>, values: seq<Variant>) {
    |values| == |forms| && forall k | 0 <= k < |forms| :: Carriable(e, forms[k], values[k])
  }

  /** An int, a float and a bool each go as any of the three; bytes only as bytes; a Variant field takes anything. */
  lemma FormsTake(v: Variant)
    ensures Takes(IntForm, v) <==> v.Int? || v.Float? || v.Bool?
    ensures Takes(FloatForm, v) <==> v.Int? || v.Float? || v.Bool?
    ensures Takes(BoolForm, v) <==> v.Int? || v.Float? || v.Bool?
    ensures Takes(BytesForm, v) <==> v.Blob?
    ensures Takes(VariantForm, v)
  {
  }

  lemma FieldRoundTrip(e: Engine, form: Form, v: Variant)
    requires e.Sound() && Carriable(e, form, v)
    ensures ArgOf(e, form, FieldOf(e, form, v)) == Some(Landed(e, form, v))
  {
    if form.VariantForm? {
      ArgRoundTrip(e, v, []);
      assert ArgCode(e, v) + [] == ArgCode(e, v);
    }
  }

  lemma LastField(e: Engine, forms: seq<Form>, values: seq<Variant>)
    requires forms != [] && AllTaken(forms, values)
    ensures var n := |forms| - 1;
            && Fields(e, forms, values)[..n] == Fields(e, forms[..n], values[..n])
            && AllLanded(e, forms, values) == AllLanded(e, forms[..n], values[..n]) + [Landed(e, forms[n], values[n])]
  {
  }

  lemma {:induction false} FieldsRoundTrip(e: Engine, forms: seq<Form>, values: seq<Variant>)
    requires e.Sound() && AllCarriable(e, forms, values)
    ensures ArgsOf(e, forms, Fields(e, forms, values)) == Some(AllLanded(e, forms, values))
  {
    if forms == [] {
      assert AllLanded(e, forms, values) == [];
    } else {
      var n := |forms| - 1;
      assert AllTaken(forms[..n], values[..n]) && AllCarriable(e, forms[..n], values[..n]);
      FieldsRoundTrip(e, forms[..n], values[..n]);
      FieldRoundTrip(e, forms[n], values[n]);
      LastField(e, forms, values);
    }
  }

  lemma {:induction false} RebuiltIs(names: seq<bytes>, values: seq<Variant>)
    requires |names| == |values| && Distinct(names)
    ensures forall key :: key in Rebuilt(names, values) <==> key in names
    ensures forall k | 0 <= k < |names| :: Rebuilt(names, values)[names[k]] == values[k]
  {
    if names != [] {
      var n := |names| - 1;
      RebuiltIs(names[..n], values[..n]);
      assert names == names[..n] + [names[n]];
    }
  }

  /** A positional call is made at the server with its own arguments, as their forms let them through. */
  lemma PositionalCall(e: Engine, sig: Signature, args: seq<Variant>)
    requires e.Sound() && !sig.table && AllCarriable(e, sig.forms, args)
    ensures CommandOf(e, sig, args).Some?
    ensures Delivered(e, sig, CommandOf(e, sig, args).value) == Some(AllLanded(e, sig.forms, args))
  {
    FieldsRoundTrip(e, sig.forms, args);
  }

  /** A table's values, in the order of its names. */
  lemma TableLists(sig: Signature, fields: map<bytes, Variant>) returns (values: seq<Variant>)
    requires sig.Proper() && sig.table && Fits(sig, [Dict(fields)])
    ensures Listed(sig, [Dict(fields)]) == Some(values) && AllTaken(sig.forms, values)
    ensures forall k | 0 <= k < |sig.names| :: sig.names[k] in fields && values[k] == fields[sig.names[k]]
  {
    assert forall k | 0 <= k < |sig.names| :: sig.names[k] in sig.names;
    EntriesAre(sig.names, fields);
    NamesAreKeys(sig.names, fields);
    values := Entries(sig.names, fields).value;
  }

  lemma ValuesDeliver(e: Engine, sig: Signature, values: seq<Variant>)
    requires e.Sound() && sig.Proper() && sig.table && AllCarriable(e, sig.forms, values)
    ensures Delivered(e, sig, Fields(e, sig.forms, values))
            == Some([Dict(Rebuilt(sig.names, AllLanded(e, sig.forms, values)))])
  {
    FieldsRoundTrip(e, sig.forms, values);
  }

  /** A table's call is made with one Dictionary again: the same keys, and each value as its form lets it
      through. */
  lemma TableCall(e: Engine, sig: Signature, fields: map<bytes, Variant>) returns (landed: map<bytes, Variant>)
    requires e.Sound() && sig.Proper() && sig.table && Fits(sig, [Dict(fields)])
    requires forall k | 0 <= k < |sig.forms| :: Carriable(e, sig.forms[k], fields[sig.names[k]])
    ensures CommandOf(e, sig, [Dict(fields)]).Some?
    ensures Delivered(e, sig, CommandOf(e, sig, [Dict(fields)]).value) == Some([Dict(landed)])
    ensures landed.Keys == fields.Keys
    ensures forall k | 0 <= k < |sig.names| :: landed[sig.names[k]] == Landed(e, sig.forms[k], fields[sig.names[k]])
  {
    var values := TableLists(sig, fields);
    ValuesDeliver(e, sig, values);
    RebuiltIs(sig.names, AllLanded(e, sig.forms, values));
    landed := Rebuilt(sig.names, AllLanded(e, sig.forms, values));
  }

  /** A value of its form's own type comes through as itself; a float if binary32 holds it. */
  ghost predicate OfItsForm(e: Engine, form: Form, v: Variant) {
    match form
    case IntForm => v.Int?
    case FloatForm => v.Float? && e.rounding.Narrow(v.d) == v.d
    case BoolForm => v.Bool?
    case BytesForm => v.Blob?
    case VariantForm => true
  }

  lemma TypedComesThrough(e: Engine, form: Form, v: Variant)
    requires e.Sound() && Takes(form, v)
    ensures Landed(e, form, v) == v <==> OfItsForm(e, form, v)
  {
    match v
    case Int(i) => assert e.asInt(Int(i)) == i;
    case Float(d) => assert e.asDouble(Float(d)) == d;
    case Bool(b) => assert e.asBool(Bool(b)) == b;
    case _ =>
  }

  /** The same Dictionary, when every value is of its form's own type. */
  lemma TableRebuilt(e: Engine, sig: Signature, fields: map<bytes, Variant>)
    requires e.Sound() && sig.Proper() && sig.table && Fits(sig, [Dict(fields)])
    requires forall k | 0 <= k < |sig.forms| ::
               Carriable(e, sig.forms[k], fields[sig.names[k]]) && OfItsForm(e, sig.forms[k], fields[sig.names[k]])
    ensures CommandOf(e, sig, [Dict(fields)]).Some?
    ensures Delivered(e, sig, CommandOf(e, sig, [Dict(fields)]).value) == Some([Dict(fields)])
  {
    var rebuilt := TableCall(e, sig, fields);
    forall key | key in fields
      ensures rebuilt[key] == fields[key]
    {
      var k :| 0 <= k < |sig.names| && sig.names[k] == key;
      TypedComesThrough(e, sig.forms[k], fields[key]);
    }
    assert rebuilt == fields;
  }

  /** Whatever fields a peer sends, they make arguments exactly when there are as many as the signature has and every
      Variant one reads; there is one argument to each, or one Dictionary. */
  lemma DeliveredExactly(e: Engine, sig: Signature, command: seq<Field>)
    requires sig.Proper()
    ensures Delivered(e, sig, command).Some? <==>
              && |command| == |sig.forms|
              && forall k | 0 <= k < |command| && sig.forms[k].VariantForm? :: ReadArg(e, command[k].data).Parsed?
    ensures Delivered(e, sig, command).Some? ==>
              |Delivered(e, sig, command).value| == if sig.table then 1 else |command|
  {
    if |command| == |sig.forms| {
      ArgsThere(e, sig.forms, command);
    }
  }

  lemma {:induction false} ArgsThere(e: Engine, forms: seq<Form>, command: seq<Field>)
    requires |forms| == |command|
    ensures ArgsOf(e, forms, command).Some? <==>
              forall k | 0 <= k < |command| && forms[k].VariantForm? :: ReadArg(e, command[k].data).Parsed?
  {
    if forms != [] {
      var n := |forms| - 1;
      ArgsThere(e, forms[..n], command[..n]);
      assert forall k | 0 <= k < n :: forms[..n][k] == forms[k] && command[..n][k] == command[k];
    }
  }

  // --- The same, step by step ---

  /** A call's arguments as its command's fields, or none if they do not fit the signature. */
  method CommandFromArgs(e: Engine, sig: Signature, callArgs: seq<Variant>) returns (command: Option<seq<Field>>)
    requires sig.Proper()
    ensures command == CommandOf(e, sig, callArgs)
  {
    var args := callArgs;
    if sig.table && |callArgs| == 1 && callArgs[0].Dict? {
      EntriesAre(sig.names, callArgs[0].fields);
    }
    if sig.table {
      if |callArgs| != 1 || !callArgs[0].Dict? {
        return None;
      }
      var listed := TakeEntries(sig.names, callArgs[0].fields);
      if listed.None? || |callArgs[0].fields| != |sig.names| {
        return None;
      }
      args := listed.value;
    } else if |args| != |sig.forms| {
      return None;
    }
    assert Listed(sig, callArgs) == Some(args);
    var fields: seq<Field> := [];
    for k := 0 to |sig.forms|
      invariant |fields| == k
      invariant forall i | 0 <= i < k ::
                  Takes(sig.forms[i], args[i]) && fields[i] == FieldOf(e, sig.forms[i], args[i])
    {
      if !Takes(sig.forms[k], args[k]) {
        return None;
      }
      fields := fields + [FieldOf(e, sig.forms[k], args[k])];
    }
    assert fields == Fields(e, sig.forms, args);
    command := Some(fields);
  }

  method TakeEntries(names: seq<bytes>, fields: map<bytes, Variant>) returns (values: Option<seq<Variant>>)
    ensures values == Entries(names, fields)
  {
    var taken: seq<Variant> := [];
    EntriesAre(names, fields);
    for k := 0 to |names|
      invariant |taken| == k && forall i | 0 <= i < k :: names[i] in fields && taken[i] == fields[names[i]]
    {
      if names[k] !in fields {
        return None;
      }
      taken := taken + [fields[names[k]]];
    }
    assert taken == Entries(names, fields).value;
    values := Some(taken);
  }

  lemma {:induction false} ArgMissing(e: Engine, forms: seq<Form>, command: seq<Field>, k: nat)
    requires |forms| == |command| && k < |forms| && ArgOf(e, forms[k], command[k]).None?
    ensures ArgsOf(e, forms, command).None?
  {
    if k < |forms| - 1 {
      ArgMissing(e, forms[..|forms| - 1], command[..|forms| - 1], k);
    }
  }

  /** The arguments a command's fields stand for, or none if they are not all there. */
  method RebuildArgs(e: Engine, sig: Signature, command: seq<Field>) returns (args: Option<seq<Variant>>)
    requires sig.Proper()
    ensures args == if |command| == |sig.forms| then ArgsOf(e, sig.forms, command) else None
  {
    if |command| != |sig.forms| {
      return None;
    }
    var values: seq<Variant> := [];
    assert sig.forms[..|sig.forms|] == sig.forms && command[..|command|] == command && sig.forms[..0] == [];
    for k := 0 to |command|
      invariant ArgsOf(e, sig.forms[..k], command[..k]) == Some(values)
    {
      assert sig.forms[..k + 1][..k] == sig.forms[..k] && command[..k + 1][..k] == command[..k];
      var v := GetField(e, sig.forms[k], command[k]);
      if v.None? {
        ArgMissing(e, sig.forms, command, k);
        return None;
      }
      values := values + [v.value];
    }
    args := Some(values);
  }

  /** The arguments a command's method is called with, or none if it is not: if the fields do not make them,
      or the method is neither for anyone to call nor for its node's authority with this peer that one. */
  method DeliverCommand(e: Engine, sig: Signature, command: seq<Field>, mode: Option<RpcMode>, authority: int,
      from: int)
      returns (args: Option<seq<Variant>>)
    requires sig.Proper()
    ensures args == if mode == Some(AnyPeer) || (mode == Some(Authority) && authority == from) then
              Delivered(e, sig, command)
            else None
  {
    args := RebuildArgs(e, sig, command);
    if args.None? || !MayCall(mode, authority, from) {
      return None;
    }
    if sig.table {
      var fields := RebuildTable(sig.names, args.value);
      args := Some([Dict(fields)]);
    }
  }

  method RebuildTable(names: seq<bytes>, values: seq<Variant>) returns (fields: map<bytes, Variant>)
    requires |names| == |values|
    ensures fields == Rebuilt(names, values)
  {
    fields := map[];
    assert names[..|names|] == names && values[..|values|] == values && names[..0] == [];
    for k := 0 to |names|
      invariant fields == Rebuilt(names[..k], values[..k])
    {
      assert names[..k + 1][..k] == names[..k] && values[..k + 1][..k] == values[..k];
      fields := fields[names[k] := values[k]];
    }
  }

  /** One field's argument; a Variant one is read from its bytes. */
  method GetField(e: Engine, form: Form, f: Field) returns (v: Option<Variant>)
    ensures v == ArgOf(e, form, f)
  {
    match form
    case IntForm => v := Some(Int(f.i));
    case FloatForm => v := Some(Float(f.f));
    case BoolForm => v := Some(Bool(f.i != 0));
    case BytesForm => v := Some(Blob(f.data));
    case VariantForm =>
      var r := new Reader(f.data);
      var u := GetArg(r, e);
      v := if r.failed then None else Some(u);
  }
}
