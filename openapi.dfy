/** The file-free middle of the OpenAPI document generator: from the deploy variables of a
    registered service it collects the names of the mandatory variables and one property
    map per variable (type, description, example and the integer bounds read from the
    variable's validator string), then renders the `properties` and `required` parts of
    the schema object line by line. */
module OpenApi {
  import opened Common
  import opened Text

  /** `DeployVariableType`; its enumeration is not part of this model beyond the two
      values the code compares against, so any other type is kept with its `toValue` text. */
  datatype VarType = StringVar | NumberVar | OtherVar(value: string)

  function TypeValue(t: VarType): string
  {
    match t
    case StringVar => "string"
    case NumberVar => "number"
    case OtherVar(v) => v
  }

  /** A deploy variable; a `None` description, value or validator is a Java `null`. */
  datatype DeployVariable = DeployVariable(
    name: string, varType: VarType, description: Option<string>, value: Option<string>,
    mandatory: bool, validator: Option<string>)

  /** A property map; a key mapped to `None` holds a Java `null`. */
  type Props = map<string, Option<string>>

  const TypeKey := "type"
  const DescriptionKey := "description"
  const ExampleKey := "example"
  const IsValidatorKey := "isValidator"
  const LengthNeedle := "Length"
  const MumNeedle := "mum"

  /** `Map.get`: a missing key reads as `null`. */
  function Lookup(p: Props, k: string): Option<string>
  {
    if k in p then p[k] else None
  }

  /** The three entries every variable's property map starts with. */
  function BaseProps(v: DeployVariable): Props
  {
    map[TypeKey := Some(TypeValue(v.varType)), DescriptionKey := v.description, ExampleKey := v.value]
  }

  // ---------------------------------------------------------------------------------
  // Validator strings

  /** The key of a validator piece: the text before its first `=`. */
  function PieceKey(piece: string): string
  {
    SplitFirst(piece, '=')[0]
  }

  /** A piece the parser stores: its key contains `needle` and the text after its first
      `=` is a Java `int`. */
  predicate Stored(piece: string, needle: string)
  {
    var kv := SplitFirst(piece, '=');
    Contains(kv[0], needle) && |kv| == 2 && ParseInt(kv[1]).Some?
  }

  /** A piece that breaks the parser: its key contains `needle` but it has no `=`, so
      reading the value is an index error. */
  predicate Broken(piece: string, needle: string)
  {
    Contains(PieceKey(piece), needle) && '=' !in piece
  }

  /** The canonical text of a stored piece's value. */
  function StoredValue(piece: string, needle: string): string
    requires Stored(piece, needle)
  {
    IntToString(ParseInt(SplitFirst(piece, '=')[1]).value)
  }

  /** One pass of the validator loop: a stored piece writes its canonical value under its
      key, and sets `isValidator` when `flag` is on; a piece with an unrelated key or a
      non-integer value changes nothing. */
  function ApplyPiece(piece: string, needle: string, flag: bool, m: Props): (r: Result<Props>)
    ensures r.Err? <==> Broken(piece, needle)
    ensures r.Err? ==> r.error == IndexOutOfBounds
  {
    var kv := SplitFirst(piece, '=');
    if !Contains(kv[0], needle) then Ok(m)
    else if |kv| < 2 then Err(IndexOutOfBounds)
    else
      match ParseInt(kv[1])
      case None => Ok(m)
      case Some(n) =>
        var m1 := m[kv[0] := Some(IntToString(n))];
        Ok(if flag then m1[IsValidatorKey := Some("true")] else m1)
  }

  /** The validator loop over the pieces, first to last; the first broken piece aborts it. */
  function ApplyPieces(pieces: seq<string>, needle: string, flag: bool, m: Props): Result<Props>
  {
    if pieces == [] then Ok(m)
    else
      match ApplyPieces(pieces[..|pieces| - 1], needle, flag, m)
      case Err(e) => Err(e)
      case Ok(m1) => ApplyPiece(pieces[|pieces| - 1], needle, flag, m1)
  }

  /** The loop fails exactly when some piece is broken, and then with the index error. */
  lemma {:induction false} PiecesFailIffBroken(pieces: seq<string>, needle: string, flag: bool, m: Props)
    ensures ApplyPieces(pieces, needle, flag, m).Err? <==> exists i :: 0 <= i < |pieces| && Broken(pieces[i], needle)
    ensures ApplyPieces(pieces, needle, flag, m).Err? ==> ApplyPieces(pieces, needle, flag, m).error == IndexOutOfBounds
  {
    if pieces != [] {
      var init := pieces[..|pieces| - 1];
      PiecesFailIffBroken(init, needle, flag, m);
      assert forall i :: 0 <= i < |init| ==> init[i] == pieces[i];
    }
  }

  /** Keys that neither contain the needle nor are `isValidator` keep their entries. */
  lemma {:induction false} PiecesKeepOtherKeys(pieces: seq<string>, needle: string, flag: bool, m: Props, k: string)
    requires !Contains(k, needle) && k != IsValidatorKey
    requires ApplyPieces(pieces, needle, flag, m).Ok?
    ensures var r := ApplyPieces(pieces, needle, flag, m).value;
      (k in r <==> k in m) && (k in m ==> r[k] == m[k])
  {
    if pieces != [] {
      PiecesKeepOtherKeys(pieces[..|pieces| - 1], needle, flag, m, k);
    }
  }

  /** Some piece of the list is stored. */
  predicate SomeStored(pieces: seq<string>, needle: string)
  {
    exists i :: 0 <= i < |pieces| && Stored(pieces[i], needle)
  }

  lemma ExistsSnoc(xs: seq<string>, init: seq<string>, P: string -> bool)
    requires xs != [] && init == xs[..|xs| - 1]
    ensures (exists i :: 0 <= i < |xs| && P(xs[i])) <==>
      (exists i :: 0 <= i < |init| && P(init[i])) || P(xs[|xs| - 1])
  {
    if exists i :: 0 <= i < |xs| && P(xs[i]) {
      var i :| 0 <= i < |xs| && P(xs[i]);
      if i < |init| {
        assert init[i] == xs[i];
      }
    }
    if exists i :: 0 <= i < |init| && P(init[i]) {
      var i :| 0 <= i < |init| && P(init[i]);
      assert init[i] == xs[i];
    }
  }

  lemma SomeStoredSnoc(pieces: seq<string>, needle: string)
    requires pieces != []
    ensures SomeStored(pieces, needle) <==>
      SomeStored(pieces[..|pieces| - 1], needle) || Stored(pieces[|pieces| - 1], needle)
  {
    ExistsSnoc(pieces, pieces[..|pieces| - 1], piece => Stored(piece, needle));
  }

  /** One pass sets `isValidator` exactly when the flag is on and the piece is stored (or
      it was already there). */
  lemma FlagStep(piece: string, needle: string, flag: bool, m: Props)
    requires ApplyPiece(piece, needle, flag, m).Ok?
    requires !Contains(IsValidatorKey, needle)
    ensures IsValidatorKey in ApplyPiece(piece, needle, flag, m).value <==>
      IsValidatorKey in m || (flag && Stored(piece, needle))
  {
  }

  /** `isValidator` is set exactly when the flag is on and some piece is stored (or it was
      already there). */
  lemma {:induction false} PiecesSetFlagIff(pieces: seq<string>, needle: string, flag: bool, m: Props)
    requires ApplyPieces(pieces, needle, flag, m).Ok?
    requires !Contains(IsValidatorKey, needle)
    ensures var r := ApplyPieces(pieces, needle, flag, m).value;
      IsValidatorKey in r <==> IsValidatorKey in m || (flag && SomeStored(pieces, needle))
  {
    if pieces != [] {
      var init := pieces[..|pieces| - 1];
      PiecesSetFlagIff(init, needle, flag, m);
      SomeStoredSnoc(pieces, needle);
      FlagStep(pieces[|pieces| - 1], needle, flag, ApplyPieces(init, needle, flag, m).value);
    }
  }

  /** The loop only ever writes `"true"` under `isValidator`. */
  lemma {:induction false} PiecesFlagValue(pieces: seq<string>, needle: string, flag: bool, m: Props)
    requires ApplyPieces(pieces, needle, flag, m).Ok?
    requires !Contains(IsValidatorKey, needle) && IsValidatorKey !in m
    ensures var r := ApplyPieces(pieces, needle, flag, m).value;
      IsValidatorKey in r ==> r[IsValidatorKey] == Some("true")
  {
    if pieces != [] {
      PiecesFlagValue(pieces[..|pieces| - 1], needle, flag, m);
    }
  }

  /** One pass writes the stored piece's value under its key and leaves every other key
      but `isValidator` alone. */
  lemma PieceStep(piece: string, needle: string, flag: bool, m: Props, k: string)
    requires ApplyPiece(piece, needle, flag, m).Ok? && k != IsValidatorKey
    ensures var r := ApplyPiece(piece, needle, flag, m).value;
      if Stored(piece, needle) && PieceKey(piece) == k then k in r && r[k] == Some(StoredValue(piece, needle))
      else (k in r <==> k in m) && (k in m ==> r[k] == m[k])
  {
  }

  /** Piece `i` is stored under key `k` and no later piece is. */
  predicate LastStoredAt(pieces: seq<string>, needle: string, k: string, i: nat)
  {
    && i < |pieces| && Stored(pieces[i], needle) && PieceKey(pieces[i]) == k
    && forall j :: i < j < |pieces| ==> !(Stored(pieces[j], needle) && PieceKey(pieces[j]) == k)
  }

  /** The entry of a key the loop writes, other than `isValidator`, holds the value of the
      last stored piece with that key, in canonical decimal. */
  lemma {:induction false} PiecesStoreLastValue(pieces: seq<string>, needle: string, flag: bool, m: Props, k: string, i: nat)
    requires ApplyPieces(pieces, needle, flag, m).Ok?
    requires k != IsValidatorKey && LastStoredAt(pieces, needle, k, i)
    ensures var r := ApplyPieces(pieces, needle, flag, m).value;
      k in r && r[k] == Some(StoredValue(pieces[i], needle))
  {
    var init := pieces[..|pieces| - 1];
    var last := pieces[|pieces| - 1];
    var r1 := ApplyPieces(init, needle, flag, m).value;
    assert ApplyPieces(pieces, needle, flag, m) == ApplyPiece(last, needle, flag, r1);
    PieceStep(last, needle, flag, r1, k);
    if i < |init| {
      LastStoredShrinks(pieces, needle, k, i);
      PiecesStoreLastValue(init, needle, flag, m, k, i);
    }
  }

  /** A last stored piece before the end stays last in the list without its final piece,
      and that final piece is not stored under the same key. */
  lemma LastStoredShrinks(pieces: seq<string>, needle: string, k: string, i: nat)
    requires LastStoredAt(pieces, needle, k, i) && i < |pieces| - 1
    ensures LastStoredAt(pieces[..|pieces| - 1], needle, k, i)
    ensures !(Stored(pieces[|pieces| - 1], needle) && PieceKey(pieces[|pieces| - 1]) == k)
  {
    var init := pieces[..|pieces| - 1];
    assert init[i] == pieces[i];
    forall j | i < j < |init| ensures !(Stored(init[j], needle) && PieceKey(init[j]) == k) {
      assert init[j] == pieces[j];
    }
  }

  /** Every entry the loop adds holds the canonical decimal text of a Java `int`, under a
      key that contains the needle. */
  lemma {:induction false} PiecesAddCanonicalInts(pieces: seq<string>, needle: string, flag: bool, m: Props, k: string)
    requires ApplyPieces(pieces, needle, flag, m).Ok?
    requires k != IsValidatorKey
    ensures var r := ApplyPieces(pieces, needle, flag, m).value;
      k in r && (k !in m || r[k] != m[k]) ==>
        && Contains(k, needle) && r[k].Some?
        && ParseInt(r[k].value).Some? && IntToString(ParseInt(r[k].value).value) == r[k].value
  {
    if pieces != [] {
      var init := pieces[..|pieces| - 1];
      PiecesAddCanonicalInts(init, needle, flag, m, k);
      var last := pieces[|pieces| - 1];
      var r := ApplyPieces(pieces, needle, flag, m).value;
      if k in r && (k !in m || r[k] != m[k]) && Stored(last, needle) && PieceKey(last) == k {
        CanonicalReparses(SplitFirst(last, '=')[1]);
      }
    }
  }

  /** The validator loop of `updateServiceApi`: splits the validator at `|` and runs each
      piece through one pass, stopping at the first broken piece. */
  method ParseValidator(validator: string, needle: string, flag: bool, m: Props) returns (r: Result<Props>)
    ensures r == ApplyPieces(JavaSplit(validator, '|'), needle, flag, m)
  {
    var pieces := JavaSplit(validator, '|');
    var acc := m;
    var i := 0;
    while i < |pieces|
      invariant 0 <= i <= |pieces|
      invariant ApplyPieces(pieces[..i], needle, flag, m) == Ok(acc)
    {
      PrefixStep(pieces, needle, flag, m, i, acc);
      ghost var next := ApplyPiece(pieces[i], needle, flag, acc);
      var kv := SplitFirst(pieces[i], '=');
      if Contains(kv[0], needle) {
        if |kv| < 2 {
          PiecesFailFrom(pieces, needle, flag, m, i + 1);
          return Err(IndexOutOfBounds);
        }
        match ParseInt(kv[1]) {
          case None =>
          case Some(n) =>
            acc := acc[kv[0] := Some(IntToString(n))];
            if flag {
              acc := acc[IsValidatorKey := Some("true")];
            }
        }
      }
      assert next == Ok(acc);
      i := i + 1;
    }
    assert pieces[..i] == pieces;
    r := Ok(acc);
  }

  /** Extending the prefix by one piece runs one more pass. */
  lemma PrefixStep(pieces: seq<string>, needle: string, flag: bool, m: Props, i: nat, acc: Props)
    requires i < |pieces| && ApplyPieces(pieces[..i], needle, flag, m) == Ok(acc)
    ensures ApplyPieces(pieces[..i + 1], needle, flag, m) == ApplyPiece(pieces[i], needle, flag, acc)
  {
    assert pieces[..i + 1][..i] == pieces[..i];
  }

  /** A loop that fails on a prefix fails on the whole. */
  lemma {:induction false} PiecesFailFrom(pieces: seq<string>, needle: string, flag: bool, m: Props, n: nat)
    requires n <= |pieces| && ApplyPieces(pieces[..n], needle, flag, m).Err?
    ensures ApplyPieces(pieces, needle, flag, m) == ApplyPieces(pieces[..n], needle, flag, m)
    decreases |pieces| - n
  {
    if n < |pieces| {
      assert pieces[..n + 1][..n] == pieces[..n];
      PiecesFailFrom(pieces, needle, flag, m, n + 1);
    } else {
      assert pieces[..n] == pieces;
    }
  }

  // ---------------------------------------------------------------------------------
  // Properties and the required set

  /** The property map of one variable. Without a validator it holds the three base
      entries; a STRING variable's validator adds its integer `*Length*` entries and the
      `isValidator` flag; a NUMBER variable's adds its integer `*mum*` entries; any other
      type ignores the validator. */
  function PropertiesOf(v: DeployVariable): Result<Props>
  {
    match v.validator
    case None => Ok(BaseProps(v))
    case Some(text) =>
      match v.varType
      case StringVar => ApplyPieces(JavaSplit(text, '|'), LengthNeedle, true, BaseProps(v))
      case NumberVar => ApplyPieces(JavaSplit(text, '|'), MumNeedle, false, BaseProps(v))
      case OtherVar(_) => Ok(BaseProps(v))
  }

  /** The required set and the property maps by variable name. */
  datatype Schema = Schema(required: set<string>, properties: map<string, Props>)

  /** The variable loop, first to last: a mandatory variable's name joins the required
      set, and the variable's property map replaces any earlier one under its name; a
      broken validator aborts the whole. */
  function SchemaOf(vars: seq<DeployVariable>): Result<Schema>
  {
    if vars == [] then Ok(Schema({}, map[]))
    else
      match SchemaOf(vars[..|vars| - 1])
      case Err(e) => Err(e)
      case Ok(s) =>
        var v := vars[|vars| - 1];
        var required := if v.mandatory then s.required + {v.name} else s.required;
        match PropertiesOf(v)
        case Err(e) => Err(e)
        case Ok(p) => Ok(Schema(required, s.properties[v.name := p]))
  }

  /** A text lacking one of the characters of `sub` does not contain `sub`. */
  lemma MissingCharNotContained(s: string, sub: string, k: nat)
    requires k < |sub| && sub[k] !in s
    ensures !Contains(s, sub)
  {
    forall i | 0 <= i <= |s| && 0 <= i && i + |sub| <= |s| ensures !OccursAt(s, sub, i) {
      assert s[i..i + |sub|][k] == s[i + k];
    }
  }

  /** None of the base keys, nor `isValidator`, contains either needle. */
  lemma BaseKeysFree()
    ensures !Contains(TypeKey, LengthNeedle) && !Contains(DescriptionKey, LengthNeedle)
    ensures !Contains(ExampleKey, LengthNeedle) && !Contains(IsValidatorKey, LengthNeedle)
    ensures !Contains(TypeKey, MumNeedle) && !Contains(DescriptionKey, MumNeedle)
    ensures !Contains(ExampleKey, MumNeedle) && !Contains(IsValidatorKey, MumNeedle)
  {
    MissingCharNotContained(TypeKey, LengthNeedle, 0);
    MissingCharNotContained(DescriptionKey, LengthNeedle, 0);
    MissingCharNotContained(ExampleKey, LengthNeedle, 0);
    MissingCharNotContained(IsValidatorKey, LengthNeedle, 0);
    MissingCharNotContained(TypeKey, MumNeedle, 1);
    MissingCharNotContained(DescriptionKey, MumNeedle, 1);
    MissingCharNotContained(ExampleKey, MumNeedle, 1);
    MissingCharNotContained(IsValidatorKey, MumNeedle, 1);
  }

  /** Every variable's property map carries its type text, description and example,
      validator or not. */
  lemma BaseEntriesKept(v: DeployVariable)
    requires PropertiesOf(v).Ok?
    ensures var p := PropertiesOf(v).value;
      && Lookup(p, TypeKey) == Some(TypeValue(v.varType))
      && TypeKey in p && DescriptionKey in p && ExampleKey in p
      && p[DescriptionKey] == v.description && p[ExampleKey] == v.value
  {
    BaseKeysFree();
    if v.validator.Some? {
      var pieces := JavaSplit(v.validator.value, '|');
      match v.varType
      case StringVar =>
        PiecesKeepOtherKeys(pieces, LengthNeedle, true, BaseProps(v), TypeKey);
        PiecesKeepOtherKeys(pieces, LengthNeedle, true, BaseProps(v), DescriptionKey);
        PiecesKeepOtherKeys(pieces, LengthNeedle, true, BaseProps(v), ExampleKey);
      case NumberVar =>
        PiecesKeepOtherKeys(pieces, MumNeedle, false, BaseProps(v), TypeKey);
        PiecesKeepOtherKeys(pieces, MumNeedle, false, BaseProps(v), DescriptionKey);
        PiecesKeepOtherKeys(pieces, MumNeedle, false, BaseProps(v), ExampleKey);
      case OtherVar(_) =>
    }
  }

  /** `isValidator` is present exactly for a STRING variable whose validator has a piece
      stored under a `*Length*` key; it is never set for a NUMBER variable. */
  lemma ValidatorFlagIff(v: DeployVariable)
    requires PropertiesOf(v).Ok?
    ensures IsValidatorKey in PropertiesOf(v).value <==>
      && v.varType == StringVar && v.validator.Some?
      && exists i :: 0 <= i < |JavaSplit(v.validator.value, '|')| && Stored(JavaSplit(v.validator.value, '|')[i], LengthNeedle)
    ensures IsValidatorKey in PropertiesOf(v).value ==> PropertiesOf(v).value[IsValidatorKey] == Some("true")
  {
    BaseKeysFree();
    if v.validator.Some? {
      var pieces := JavaSplit(v.validator.value, '|');
      match v.varType
      case StringVar =>
        PiecesSetFlagIff(pieces, LengthNeedle, true, BaseProps(v));
        PiecesFlagValue(pieces, LengthNeedle, true, BaseProps(v));
      case NumberVar =>
        PiecesSetFlagIff(pieces, MumNeedle, false, BaseProps(v));
        PiecesFlagValue(pieces, MumNeedle, false, BaseProps(v));
      case OtherVar(_) =>
    }
  }

  /** A variable's property map fails exactly when its type reads the validator and some
      piece's key contains that type's needle without an `=`. */
  lemma PropertiesFailIff(v: DeployVariable)
    ensures PropertiesOf(v).Err? <==>
      && v.validator.Some? && (v.varType == StringVar || v.varType == NumberVar)
      && var needle := if v.varType == StringVar then LengthNeedle else MumNeedle;
         exists i :: 0 <= i < |JavaSplit(v.validator.value, '|')| && Broken(JavaSplit(v.validator.value, '|')[i], needle)
    ensures PropertiesOf(v).Err? ==> PropertiesOf(v).error == IndexOutOfBounds
  {
    if v.validator.Some? {
      var pieces := JavaSplit(v.validator.value, '|');
      match v.varType
      case StringVar => PiecesFailIffBroken(pieces, LengthNeedle, true, BaseProps(v));
      case NumberVar => PiecesFailIffBroken(pieces, MumNeedle, false, BaseProps(v));
      case OtherVar(_) =>
    }
  }

  /** A name is required exactly when some variable of that name is mandatory. */
  lemma {:induction false} RequiredIffMandatory(vars: seq<DeployVariable>)
    requires SchemaOf(vars).Ok?
    ensures forall n :: n in SchemaOf(vars).value.required <==>
      exists i :: 0 <= i < |vars| && vars[i].name == n && vars[i].mandatory
  {
    if vars != [] {
      var init := vars[..|vars| - 1];
      RequiredIffMandatory(init);
      assert forall i :: 0 <= i < |init| ==> init[i] == vars[i];
    }
  }

  /** The properties are keyed by exactly the variables' names. */
  lemma {:induction false} PropertyNames(vars: seq<DeployVariable>)
    requires SchemaOf(vars).Ok?
    ensures forall n :: n in SchemaOf(vars).value.properties <==> exists i :: 0 <= i < |vars| && vars[i].name == n
  {
    if vars != [] {
      var init := vars[..|vars| - 1];
      PropertyNames(init);
      assert forall i :: 0 <= i < |init| ==> init[i] == vars[i];
    }
  }

  /** Variable `i` is the last one with its name. */
  predicate LastNamedAt(vars: seq<DeployVariable>, i: nat)
  {
    i < |vars| && forall j :: i < j < |vars| ==> vars[j].name != vars[i].name
  }

  /** The property map under a name is the one of the last variable with that name. */
  lemma {:induction false} LastVariableWins(vars: seq<DeployVariable>, i: nat)
    requires SchemaOf(vars).Ok? && LastNamedAt(vars, i)
    ensures PropertiesOf(vars[i]).Ok?
    ensures vars[i].name in SchemaOf(vars).value.properties
    ensures SchemaOf(vars).value.properties[vars[i].name] == PropertiesOf(vars[i]).value
  {
    var init := vars[..|vars| - 1];
    if i < |init| {
      assert init[i] == vars[i];
      assert forall j :: i < j < |init| ==> init[j] == vars[j];
      LastVariableWins(init, i);
    }
  }

  /** The only way the variable loop fails is the index error of a broken validator. */
  lemma {:induction false} SchemaErrorIsIndex(vars: seq<DeployVariable>)
    ensures SchemaOf(vars).Err? ==> SchemaOf(vars).error == IndexOutOfBounds
  {
    if vars != [] {
      SchemaErrorIsIndex(vars[..|vars| - 1]);
      PropertiesFailIff(vars[|vars| - 1]);
    }
  }

  /** A broken validator anywhere aborts the whole schema, with the index error. */
  lemma {:induction false} SchemaFailsOnBroken(vars: seq<DeployVariable>, i: nat)
    requires i < |vars| && PropertiesOf(vars[i]).Err?
    ensures SchemaOf(vars).Err? && SchemaOf(vars).error == IndexOutOfBounds
  {
    var init := vars[..|vars| - 1];
    SchemaErrorIsIndex(vars);
    if i < |init| {
      assert init[i] == vars[i];
      SchemaFailsOnBroken(init, i);
    }
  }

  /** One variable's property map, as the body of the variable loop of
      `updateServiceApi` builds it: the base entries, then the validator pieces of a
      string or number variable; a broken validator gives the index error. */
  method VariableProps(v: DeployVariable) returns (r: Result<Props>)
    ensures r == PropertiesOf(v)
  {
    r := Ok(BaseProps(v));
    if v.validator.Some? {
      var needle, flag := LengthNeedle, true;
      if v.varType == NumberVar {
        needle, flag := MumNeedle, false;
      }
      if v.varType == StringVar || v.varType == NumberVar {
        r := ParseValidator(v.validator.value, needle, flag, BaseProps(v));
      }
    }
  }

  /** The variable loop of `updateServiceApi`, filling the required set and the property
      maps in place; a broken validator ends it with the index error. */
  method BuildSchema(vars: seq<DeployVariable>) returns (r: Result<Schema>)
    ensures r == SchemaOf(vars)
  {
    var required: set<string> := {};
    var properties: map<string, Props> := map[];
    var i := 0;
    while i < |vars|
      invariant 0 <= i <= |vars|
      invariant SchemaOf(vars[..i]) == Ok(Schema(required, properties))
    {
      assert vars[..i + 1][..i] == vars[..i];
      var v := vars[i];
      if v.mandatory {
        required := required + {v.name};
      }
      var p := VariableProps(v);
      if p.Err? {
        SchemaFailsOnBroken(vars, i);
        return Err(IndexOutOfBounds);
      }
      properties := properties[v.name := p.value];
      i := i + 1;
    }
    assert vars[..i] == vars;
    r := Ok(Schema(required, properties));
  }

  // ---------------------------------------------------------------------------------
  // Rendering

  const NameIndent := "        "
  const FieldIndent := "         "

  /** `StringBuilder.append` of a possibly null string. */
  function Show(o: Option<string>): string
  {
    match o
    case None => "null"
    case Some(t) => t
  }

  function FieldLine(field: string, value: Option<string>): string
  {
    FieldIndent + field + ": " + Show(value)
  }

  /** The three fields every property renders. */
  function BaseFields(p: Props): seq<(string, Option<string>)>
  {
    [("type", Lookup(p, TypeKey)), ("description", Lookup(p, DescriptionKey)), ("example", Lookup(p, ExampleKey))]
  }

  /** A string property with a validator renders its length bounds. */
  predicate WithLengths(p: Props)
  {
    Lookup(p, TypeKey) == Some("string") && Lookup(p, IsValidatorKey).Some?
  }

  function LengthFields(p: Props): seq<(string, Option<string>)>
  {
    [("minLength", Lookup(p, "minLength")), ("maxLength", Lookup(p, "maxLength"))]
  }

  /** A number property renders its numeric bounds. */
  predicate WithBounds(p: Props)
  {
    Lookup(p, TypeKey) == Some("number")
  }

  function BoundFields(p: Props): seq<(string, Option<string>)>
  {
    [("minimum", Lookup(p, "minimum")), ("maximum", Lookup(p, "maximum"))]
  }

  /** The labelled fields one property renders, in emission order: the base three, the
      length bounds for a validated string, the numeric bounds for a number. */
  function PropertyFields(p: Props): seq<(string, Option<string>)>
  {
    BaseFields(p) + (if WithLengths(p) then LengthFields(p) else []) + (if WithBounds(p) then BoundFields(p) else [])
  }

  function Labels(fields: seq<(string, Option<string>)>): set<string>
  {
    set i | 0 <= i < |fields| :: fields[i].0
  }

  function FieldLines(fields: seq<(string, Option<string>)>): (r: seq<string>)
    ensures |r| == |fields|
    ensures forall i :: 0 <= i < |r| ==> r[i] == FieldLine(fields[i].0, fields[i].1)
  {
    if fields == [] then [] else [FieldLine(fields[0].0, fields[0].1)] + FieldLines(fields[1..])
  }

  lemma {:induction false} FieldLinesAppend(a: seq<(string, Option<string>)>, b: seq<(string, Option<string>)>)
    ensures FieldLines(a + b) == FieldLines(a) + FieldLines(b)
  {
    if a == [] {
      assert a + b == b;
    } else {
      assert (a + b)[0] == a[0];
      assert (a + b)[1..] == a[1..] + b;
      FieldLinesAppend(a[1..], b);
    }
  }

  /** The lines of one property: its name, then one line per field. */
  function PropertyLines(key: string, p: Props): seq<string>
  {
    [NameIndent + key + ":"] + FieldLines(PropertyFields(p))
  }

  /** The `properties` text for the keys in iteration order. */
  function PropertiesText(order: seq<string>, properties: map<string, Props>): seq<string>
    requires forall k :: k in order ==> k in properties
  {
    if order == [] then []
    else
      var k := order[|order| - 1];
      PropertiesText(order[..|order| - 1], properties) + PropertyLines(k, properties[k])
  }

  /** The rendering loop over the property maps; `order` is the map's iteration order,
      which Java leaves unspecified. */
  method RenderProperties(order: seq<string>, properties: map<string, Props>) returns (lines: seq<string>)
    requires forall k :: k in order ==> k in properties
    ensures lines == PropertiesText(order, properties)
  {
    lines := [];
    var i := 0;
    while i < |order|
      invariant 0 <= i <= |order|
      invariant lines == PropertiesText(order[..i], properties)
    {
      assert order[..i + 1][..i] == order[..i];
      lines := AppendProperty(lines, order[i], properties[order[i]]);
      i := i + 1;
    }
    assert order[..i] == order;
  }

  /** A property's lines are its name line followed by the lines of each block of fields
      it renders. */
  lemma PropertyLinesByBlock(key: string, p: Props)
    ensures PropertyLines(key, p) ==
      [NameIndent + key + ":"] + FieldLines(BaseFields(p))
      + (if WithLengths(p) then FieldLines(LengthFields(p)) else [])
      + (if WithBounds(p) then FieldLines(BoundFields(p)) else [])
  {
    var lengths := if WithLengths(p) then LengthFields(p) else [];
    var bounds := if WithBounds(p) then BoundFields(p) else [];
    assert FieldLines(lengths) == (if WithLengths(p) then FieldLines(LengthFields(p)) else []);
    assert FieldLines(bounds) == (if WithBounds(p) then FieldLines(BoundFields(p)) else []);
    FieldLinesAppend(BaseFields(p), lengths);
    FieldLinesAppend(BaseFields(p) + lengths, bounds);
  }

  /** The body of the rendering loop: appends one property's lines, block by block as the
      source does: the name line, the three base fields, then each conditional pair. */
  method AppendProperty(lines: seq<string>, key: string, p: Props) returns (out: seq<string>)
    ensures out == lines + PropertyLines(key, p)
  {
    out := lines + [NameIndent + key + ":"] + FieldLines(BaseFields(p));
    var lengths: seq<string> := [];
    if WithLengths(p) {
      lengths := FieldLines(LengthFields(p));
    }
    out := out + lengths;
    var bounds: seq<string> := [];
    if WithBounds(p) {
      bounds := FieldLines(BoundFields(p));
    }
    out := out + bounds;
    PropertyLinesByBlock(key, p);
  }

  lemma {:induction false} LabelsAppend(a: seq<(string, Option<string>)>, b: seq<(string, Option<string>)>)
    ensures Labels(a + b) == Labels(a) + Labels(b)
  {
    var ab := a + b;
    forall x | x in Labels(a) ensures x in Labels(ab) {
      var i :| 0 <= i < |a| && a[i].0 == x;
      assert ab[i] == a[i];
    }
    forall x | x in Labels(b) ensures x in Labels(ab) {
      var i :| 0 <= i < |b| && b[i].0 == x;
      assert ab[|a| + i] == b[i];
    }
  }

  /** The labels a property renders: always the base three, the length pair exactly for a
      validated string, the numeric pair exactly for a number. */
  lemma FieldLabels(p: Props)
    ensures var ls := Labels(PropertyFields(p));
      && {"type", "description", "example"} <= ls
      && ("minLength" in ls <==> WithLengths(p)) && ("maxLength" in ls <==> WithLengths(p))
      && ("minimum" in ls <==> WithBounds(p)) && ("maximum" in ls <==> WithBounds(p))
  {
    var base, lengths, bounds := BaseFields(p), LengthFields(p), BoundFields(p);
    LabelsOfThree(base[0], base[1], base[2]);
    assert base == [base[0], base[1], base[2]];
    LabelsOfTwo(lengths[0], lengths[1]);
    assert lengths == [lengths[0], lengths[1]];
    LabelsOfTwo(bounds[0], bounds[1]);
    assert bounds == [bounds[0], bounds[1]];
    assert Labels([]) == {};
    var withL := if WithLengths(p) then lengths else [];
    LabelsAppend(base, withL);
    LabelsAppend(base + withL, if WithBounds(p) then bounds else []);
  }

  lemma LabelsOfTwo(a: (string, Option<string>), b: (string, Option<string>))
    ensures Labels([a, b]) == {a.0, b.0}
  {
    assert [a, b][0] == a && [a, b][1] == b;
  }

  lemma LabelsOfThree(a: (string, Option<string>), b: (string, Option<string>), c: (string, Option<string>))
    ensures Labels([a, b, c]) == {a.0, b.0, c.0}
  {
    assert [a, b, c][0] == a && [a, b, c][1] == b && [a, b, c][2] == c;
  }

  /** A variable's rendered property always has the type, description and example lines;
      it has the length-bound lines exactly when the variable is a STRING whose validator
      stored a `*Length*` piece, and the numeric-bound lines exactly when its type text is
      `number`. */
  lemma RenderedFieldsOfVariable(v: DeployVariable)
    requires PropertiesOf(v).Ok?
    ensures var ls := Labels(PropertyFields(PropertiesOf(v).value));
      && {"type", "description", "example"} <= ls
      && ("minLength" in ls <==> "maxLength" in ls)
      && ("minLength" in ls <==>
            && v.varType == StringVar && v.validator.Some?
            && exists i :: 0 <= i < |JavaSplit(v.validator.value, '|')|
                 && Stored(JavaSplit(v.validator.value, '|')[i], LengthNeedle))
      && ("minimum" in ls <==> "maximum" in ls)
      && ("minimum" in ls <==> TypeValue(v.varType) == "number")
  {
    var p := PropertiesOf(v).value;
    FieldLabels(p);
    BaseEntriesKept(v);
    ValidatorFlagIff(v);
    assert WithLengths(p) <==> TypeValue(v.varType) == "string" && IsValidatorKey in p;
    assert WithBounds(p) <==> TypeValue(v.varType) == "number";
  }

  /** The line a required name renders as. */
  function RequiredLine(name: string): string
  {
    NameIndent + "- " + name
  }

  lemma RequiredLineInjective(a: string, b: string)
    requires RequiredLine(a) == RequiredLine(b)
    ensures a == b
  {
    var n := |NameIndent + "- "|;
    assert RequiredLine(a)[n..] == a;
    assert RequiredLine(b)[n..] == b;
  }

  function RequiredLines(order: seq<string>): (r: seq<string>)
    ensures |r| == |order|
  {
    if order == [] then [] else RequiredLines(order[..|order| - 1]) + [RequiredLine(order[|order| - 1])]
  }

  /** The rendering loop over the required set; `order` is the set's iteration order. */
  method RenderRequired(order: seq<string>) returns (lines: seq<string>)
    ensures lines == RequiredLines(order)
  {
    lines := [];
    var i := 0;
    while i < |order|
      invariant 0 <= i <= |order|
      invariant lines == RequiredLines(order[..i])
    {
      assert order[..i + 1][..i] == order[..i];
      lines := lines + [RequiredLine(order[i])];
      i := i + 1;
    }
    assert order[..i] == order;
  }

  /** Each name's line occurs as often as the name does in the iteration order. */
  lemma {:induction false} RequiredLineCount(order: seq<string>, name: string)
    ensures multiset(RequiredLines(order))[RequiredLine(name)] == multiset(order)[name]
  {
    if order != [] {
      var init := order[..|order| - 1];
      var last := order[|order| - 1];
      RequiredLineCount(init, name);
      assert order == init + [last];
      if RequiredLine(last) == RequiredLine(name) {
        RequiredLineInjective(last, name);
      }
    }
  }

  lemma {:induction false} DistinctCount(order: seq<string>, name: string)
    requires forall i, j :: 0 <= i < j < |order| ==> order[i] != order[j]
    ensures multiset(order)[name] == if name in order then 1 else 0
  {
    if order != [] {
      var init := order[..|order| - 1];
      var last := order[|order| - 1];
      assert order == init + [last];
      DistinctCount(init, name);
      assert last !in init by {
        forall i | 0 <= i < |init| ensures init[i] != last {
          assert init[i] == order[i];
        }
      }
    }
  }

  /** Rendering the required set in any iteration order, each element visited once, gives
      exactly one line per required name and no line for any other name. */
  lemma RequiredLinesOnePerName(order: seq<string>, required: set<string>, name: string)
    requires forall i, j :: 0 <= i < j < |order| ==> order[i] != order[j]
    requires forall n :: n in order <==> n in required
    ensures multiset(RequiredLines(order))[RequiredLine(name)] == if name in required then 1 else 0
  {
    RequiredLineCount(order, name);
    DistinctCount(order, name);
  }
}
