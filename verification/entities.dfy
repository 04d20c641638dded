/**
 * The records the client receives from the API — recipes and the stored user —
 * and the two text forms a recipe's lists are edited in: ingredient names
 * separated by commas, preparation steps one per line.
 */
module Entities {
  import opened Optional
  import opened Strings
  import opened Seqs

  // ---------------------------------------------------------------------------
  // Dates
  // ---------------------------------------------------------------------------

  /** A 0-based month, as `Date.getMonth` returns it. */
  type Month = m: int | 0 <= m < 12

  /** A valid instant: its time value and its local calendar year and month. */
  datatype Moment = Moment(millis: int, year: int, month: Month)

  /** A date field of a recipe as `new Date(field)` sees it: `Absent`, present
      but not a date, or a date. For `fechaCreacion`, `Absent` stands for
      every value `||` skips: missing, null, the empty string, 0 and false.
      For `createdAt`, which is read last, `Absent` means missing; a null
      there is `new Date(null)`, the epoch, so it is `At` the moment with
      time value 0. */
  datatype DateField = Absent | Unparseable | At(moment: Moment)

  // ---------------------------------------------------------------------------
  // Recipes
  // ---------------------------------------------------------------------------

  datatype Ingredient = Ingredient(nombre: string)

  datatype Recipe = Recipe(
    id: string,
    titulo: string,
    descripcion: Option<string>,
    ingredientes: Option<seq<Ingredient>>,
    pasos: Option<seq<string>>,
    fechaCreacion: DateField,
    createdAt: DateField)

  /** `new Date(receta.fechaCreacion || receta.createdAt)`: `None` is the
      Invalid Date, which compares false with everything. */
  function CreationMoment(r: Recipe): (m: Option<Moment>)
    ensures r.fechaCreacion.At? ==> m == Some(r.fechaCreacion.moment)
    ensures r.fechaCreacion.Unparseable? ==> m == None
    ensures r.fechaCreacion.Absent? ==> (m.Some? <==> r.createdAt.At?)
  {
    var field := if r.fechaCreacion != Absent then r.fechaCreacion else r.createdAt;
    match field
    case At(moment) => Some(moment)
    case _ => None
  }

  /** The body the client sends to create or update a recipe. */
  datatype Draft = Draft(
    titulo: string,
    descripcion: string,
    ingredientes: seq<Ingredient>,
    pasos: seq<string>)

  /** The four text inputs a recipe is written in, in the creation form and
      in the list's edit form alike. */
  datatype Fields = Fields(titulo: string, descripcion: string, ingredientes: string, pasos: string)

  const EmptyFields: Fields := Fields("", "", "", "")

  // ---------------------------------------------------------------------------
  // Replies
  // ---------------------------------------------------------------------------

  /** What a request to the API came to: a success status with its body, an
      error status with the body's `error` field if it has one, or an
      exception thrown by `fetch` or by reading the body. */
  datatype Reply<+T> = Ok(value: T) | Refused(error: Option<string>) | Threw(message: string)

  /** The message of the exception a failed reply ends in, where the success
      check does `throw new Error(data.error || fallback)`. */
  function FailureMessage<T>(reply: Reply<T>, fallback: string): (m: string)
    requires !reply.Ok?
    ensures reply.Refused? && reply.error.Some? && reply.error.value != [] ==> m == reply.error.value
    ensures reply.Refused? && (reply.error.None? || reply.error.value == []) ==> m == fallback
    ensures reply.Threw? ==> m == reply.message
  {
    match reply
    case Refused(error) => OrElse(error, fallback)
    case Threw(message) => message
  }

  // ---------------------------------------------------------------------------
  // Users
  // ---------------------------------------------------------------------------

  /** A JSON value, as stored under the "user" key of local storage. */
  datatype Json =
    | JNull
    | JBool(b: bool)
    | JNumber(n: int)
    | JString(s: string)
    | JArray(items: seq<Json>)
    | JObject(fields: map<string, Json>)

  /** The signed-in user: whatever fields the API returned. */
  type User = map<string, Json>

  const PlanField: string := "plan"

  /** `user?.plan` when it is a string. */
  function PlanOf(user: Option<User>): (p: Option<string>)
    ensures p.Some? <==> user.Some? && PlanField in user.value && user.value[PlanField].JString?
  {
    if user.Some? && PlanField in user.value && user.value[PlanField].JString?
    then Some(user.value[PlanField].s)
    else None
  }

  /** `s || fallback` for an optional string: the fallback replaces a missing
      or empty value. */
  function OrElse(s: Option<string>, fallback: string): (r: string)
    ensures s.Some? && s.value != [] ==> r == s.value
    ensures s.None? || s.value == [] ==> r == fallback
  {
    if s.Some? && s.value != [] then s.value else fallback
  }

  /** `plan?.toUpperCase() || "PLUS"`: the plan's badge text. */
  function PlanLabel(plan: Option<string>): (r: string)
    ensures r != []
    ensures plan.Some? && plan.value != [] ==> r == ToUpper(plan.value)
    ensures plan.None? || plan.value == [] ==> r == "PLUS"
  {
    if plan.Some? && ToUpper(plan.value) != [] then ToUpper(plan.value) else "PLUS"
  }

  // ---------------------------------------------------------------------------
  // Text forms of the ingredient and step lists
  // ---------------------------------------------------------------------------

  function NonEmpty(s: string): bool {
    s != []
  }

  function NonBlank(s: string): bool {
    !IsBlank(s)
  }

  function MakeIngredient(nombre: string): Ingredient {
    Ingredient(nombre)
  }

  function NameOf(i: Ingredient): string {
    i.nombre
  }

  /** The comma-separated pieces of the ingredients text, each trimmed. */
  function IngredientPieces(text: string): (r: seq<string>)
    ensures |r| == Occurrences(text, ',') + 1
  {
    SplitCount(text, ',');
    Map(Split(text, ','), Trim)
  }

  /** `text.split(',').map(trim).filter(Boolean).map(nombre => ({ nombre }))`. */
  function ParseIngredients(text: string): (r: seq<Ingredient>)
    ensures forall k :: 0 <= k < |r| ==> r[k].nombre != [] && IsTrimmed(r[k].nombre)
    ensures |r| <= Occurrences(text, ',') + 1
    ensures IsSubsequence(Map(r, NameOf), IngredientPieces(text))
    ensures |r| == Count(IngredientPieces(text), NonEmpty)
  {
    var names := Filter(IngredientPieces(text), NonEmpty);
    KeptPiecesTrimmed(Split(text, ','));
    NamesOfIngredients(names);
    Map(names, MakeIngredient)
  }

  /** The trimmed pieces a filter keeps are still trimmed. */
  lemma KeptPiecesTrimmed(parts: seq<string>)
    ensures forall k :: 0 <= k < |Filter(Map(parts, Trim), NonEmpty)| ==>
              IsTrimmed(Filter(Map(parts, Trim), NonEmpty)[k])
  {
    var pieces := Map(parts, Trim);
    var names := Filter(pieces, NonEmpty);
    SubsequenceMembers(names, pieces);
    forall k | 0 <= k < |names| ensures IsTrimmed(names[k]) {
      assert names[k] in pieces;
    }
  }

  /** Wrapping names as ingredients and reading them back is the identity. */
  lemma NamesOfIngredients(names: seq<string>)
    ensures Map(Map(names, MakeIngredient), NameOf) == names
  {
  }

  /** `text.split('\n').filter(paso => paso.trim())`: the non-blank lines,
      untrimmed and in order. */
  function ParseSteps(text: string): (r: seq<string>)
    ensures forall k :: 0 <= k < |r| ==> !IsBlank(r[k]) && '\n' !in r[k]
    ensures IsSubsequence(r, Split(text, '\n'))
    ensures |r| == Count(Split(text, '\n'), NonBlank)
  {
    var lines := Split(text, '\n');
    var r := Filter(lines, NonBlank);
    SubsequenceMembers(r, lines);
    assert forall k :: 0 <= k < |r| ==> r[k] in lines;
    r
  }

  /** `datosReceta`: the fields as typed, with the two lists parsed. */
  function DraftOf(fields: Fields): (d: Draft)
    ensures d.titulo == fields.titulo && d.descripcion == fields.descripcion
    ensures forall k :: 0 <= k < |d.ingredientes| ==>
              d.ingredientes[k].nombre != [] && IsTrimmed(d.ingredientes[k].nombre)
    ensures forall k :: 0 <= k < |d.pasos| ==> !IsBlank(d.pasos[k]) && '\n' !in d.pasos[k]
    ensures d.ingredientes == ParseIngredients(fields.ingredientes) && d.pasos == ParseSteps(fields.pasos)
  {
    Draft(fields.titulo, fields.descripcion, ParseIngredients(fields.ingredientes), ParseSteps(fields.pasos))
  }

  /** `ingredientes?.map(ing => ing.nombre).join(', ') || ""`. */
  function IngredientsText(ings: Option<seq<Ingredient>>): string {
    match ings
    case None => ""
    case Some(list) => Join(Map(list, NameOf), ", ")
  }

  /** `pasos?.join('\n') || ""`. */
  function StepsText(steps: Option<seq<string>>): string {
    match steps
    case None => ""
    case Some(list) => Join(list, "\n")
  }

  /** A name that survives the text form unchanged. */
  predicate WellFormedName(n: string) {
    n != [] && IsTrimmed(n) && ',' !in n
  }

  /** A step that survives the text form unchanged. */
  predicate WellFormedStep(s: string) {
    !IsBlank(s) && '\n' !in s
  }

  function Spaced(s: string): string {
    " " + s
  }

  /** Splitting names joined by ", " on ',' leaves a blank before every name
      but the first. */
  lemma {:induction false} SplitCommaSpaceJoin(names: seq<string>)
    requires |names| >= 1
    requires forall k :: 0 <= k < |names| ==> ',' !in names[k]
    ensures Split(Join(names, ", "), ',') == [names[0]] + Map(names[1..], Spaced)
    decreases |names|
  {
    if |names| == 1 {
      SplitNoSeparator(names[0], ',');
    } else {
      var tail := Join(names[1..], ", ");
      assert Join(names, ", ") == names[0] + [','] + (" " + tail);
      SplitAfterPiece(names[0], ',', " " + tail);
      SplitCommaSpaceJoin(names[1..]);
      var inner := Split(tail, ',');
      assert inner == [names[1]] + Map(names[2..], Spaced) by {
        assert names[1..][0] == names[1];
        assert names[1..][1..] == names[2..];
      }
      assert (" " + tail)[1..] == tail;
      assert Split(" " + tail, ',') == [" " + inner[0]] + inner[1..];
      assert Map(names[1..], Spaced) == [" " + names[1]] + Map(names[2..], Spaced);
    }
  }

  /** Editing round trip for ingredients: re-parsing the text the edit form
      shows gives back the list, when every name is trimmed, non-empty and
      comma-free. A missing list comes back empty. */
  lemma IngredientsRoundTrip(ings: Option<seq<Ingredient>>)
    requires ings.Some? ==> forall k :: 0 <= k < |ings.value| ==> WellFormedName(ings.value[k].nombre)
    ensures ParseIngredients(IngredientsText(ings)) == ings.GetOr([])
  {
    if ings.None? || ings.value == [] {
      assert IngredientPieces("") == [""];
    } else {
      var list := ings.value;
      var names := Map(list, NameOf);
      SplitCommaSpaceJoin(names);
      TrimSpacedNames(names);
      assert IngredientPieces(IngredientsText(ings)) == names;
      FilterAll(names, NonEmpty);
      assert Map(names, MakeIngredient) == list;
    }
  }

  /** Trimming the pieces of a ", "-joined list gives the trimmed names back. */
  lemma TrimSpacedNames(names: seq<string>)
    requires |names| >= 1
    requires forall k :: 0 <= k < |names| ==> IsTrimmed(names[k])
    ensures Map([names[0]] + Map(names[1..], Spaced), Trim) == names
  {
    var pieces := [names[0]] + Map(names[1..], Spaced);
    forall k | 0 <= k < |names|
      ensures Trim(pieces[k]) == names[k]
    {
      if k > 0 {
        assert pieces[k] == " " + names[k];
        TrimLeadingSpace(names[k]);
      }
    }
  }

  /** Editing round trip for steps: re-parsing the text the edit form shows
      gives back the list, when every step is non-blank and single-line. */
  lemma StepsRoundTrip(steps: Option<seq<string>>)
    requires steps.Some? ==> forall k :: 0 <= k < |steps.value| ==> WellFormedStep(steps.value[k])
    ensures ParseSteps(StepsText(steps)) == steps.GetOr([])
  {
    if steps.None? || steps.value == [] {
      assert Split("", '\n') == [""];
      assert IsBlank("");
    } else {
      SplitJoin(steps.value, '\n');
      FilterAll(steps.value, NonBlank);
    }
  }
}
