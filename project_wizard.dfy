/** `proyectos/nuevo/page.tsx`: the four-step wizard that drafts a project
    (script, concept, cast, production) and then commits it. The page's state
    variables are the fields of `NewProjectPage`; each event handler is one
    method, taken as one atomic transition. */
module ProjectWizard {
  import opened Common
  import opened Text
  import opened Remote
  import opened ProjectService

  const LastStep: int := 3

  /** PDF, Word 97-2003 and Word 2007+ documents. */
  const ScriptTypes: seq<string> := [
    "application/pdf",
    "application/msword",
    "application/vnd.openxmlformats-officedocument.wordprocessingml.document"]

  const WrongTypeMessage := "SOLO PDF O WORD PERMITIDO"
  const TooBigMessage := "EL ARCHIVO EXCEDE LOS 10MB"
  const LaunchedMessage := "PROYECTO LANZADO CON ÉXITO"
  const LaunchFailedMessage := "ERROR AL LANZAR PROYECTO"
  const SessionExpiredMessage := "Sesión expirada"

  const BlankCharacter := DraftCharacter("", "", "", "", "", "", "")
  const InitialForm := ProjectForm("", "", None, [], "", "#dc2626")

  datatype StatusKind = Success | Error

  /** The transient banner (`StatusPopup`). */
  datatype Status = Status(show: bool, message: string, kind: StatusKind)

  function Min(a: int, b: int): int { if a < b then a else b }
  function Max(a: int, b: int): int { if a < b then b else a }

  /** `isLocked`: the script step cannot be left without a file or the
      explicit choice to go on without one. */
  predicate IsLocked(step: int, hasFile: bool, skipScript: bool)
  {
    step == 0 && !hasFile && !skipScript
  }

  /** The effect of the "next" and "back" controls on the step counter. */
  function NextStep(step: int, locked: bool): int
  {
    if locked then step else Min(step + 1, LastStep)
  }

  function PrevStep(step: int): int
  {
    Max(step - 1, 0)
  }

  /** A navigation event, with the file and skip state at the moment of a
      "next" click. */
  datatype Move = Next(hasFile: bool, skipScript: bool) | Back

  /** The step reached from `step` after `moves`. */
  function Walk(step: int, moves: seq<Move>): int
    decreases |moves|
  {
    if moves == [] then step
    else
      var s := match moves[0]
               case Next(f, k) => NextStep(step, IsLocked(step, f, k))
               case Back => PrevStep(step);
      Walk(s, moves[1..])
  }

  /** Whatever the clicks, the step counter stays within 0..3. */
  lemma {:induction false} WalkStaysInRange(step: int, moves: seq<Move>)
    requires 0 <= step <= LastStep
    ensures 0 <= Walk(step, moves) <= LastStep
    decreases |moves|
  {
    if moves != [] {
      var s := match moves[0]
               case Next(f, k) => NextStep(step, IsLocked(step, f, k))
               case Back => PrevStep(step);
      WalkStaysInRange(s, moves[1..]);
    }
  }

  /** The script step is only ever left by a "next" click made while a file
      was attached or skipping was chosen. */
  lemma {:induction false} LeavingScriptNeedsFileOrSkip(moves: seq<Move>)
    ensures Walk(0, moves) != 0 ==>
      exists k :: 0 <= k < |moves| && moves[k].Next? && (moves[k].hasFile || moves[k].skipScript)
    decreases |moves|
  {
    if moves != [] && Walk(0, moves) != 0 {
      match moves[0]
      case Back =>
        LeavingScriptNeedsFileOrSkip(moves[1..]);
        var k :| 0 <= k < |moves[1..]| && moves[1..][k].Next? && (moves[1..][k].hasFile || moves[1..][k].skipScript);
        assert moves[k + 1] == moves[1..][k];
      case Next(f, s) =>
        if !f && !s {
          LeavingScriptNeedsFileOrSkip(moves[1..]);
          var k :| 0 <= k < |moves[1..]| && moves[1..][k].Next? && (moves[1..][k].hasFile || moves[1..][k].skipScript);
          assert moves[k + 1] == moves[1..][k];
        } else {
          assert moves[0].Next? && (moves[0].hasFile || moves[0].skipScript);
        }
    }
  }

  /** The verdict of the script input on a picked file. */
  datatype Intake = Accepted | Rejected(message: string)

  /** Type first, then size: a file is accepted exactly when it is a PDF or
      Word document of at most 10 MiB. */
  function CheckScript(file: File): (v: Intake)
    ensures v == Accepted <==> file.mimeType in ScriptTypes && file.size <= MaxScriptBytes
    ensures file.mimeType !in ScriptTypes ==> v == Rejected(WrongTypeMessage)
    ensures file.mimeType in ScriptTypes && file.size > MaxScriptBytes ==> v == Rejected(TooBigMessage)
  {
    if file.mimeType !in ScriptTypes then Rejected(WrongTypeMessage)
    else if file.size > MaxScriptBytes then Rejected(TooBigMessage)
    else Accepted
  }

  /** The list after confirming `c`: with a remembered position inside the
      list, that position is overwritten and nothing else changes; otherwise
      `c` goes at the end. */
  function Confirmed(list: seq<DraftCharacter>, editing: Option<nat>, c: DraftCharacter): (r: seq<DraftCharacter>)
    ensures editing.Some? && editing.value < |list| ==>
      && |r| == |list|
      && r[editing.value] == c
      && forall k :: 0 <= k < |list| && k != editing.value ==> r[k] == list[k]
    ensures editing.None? || editing.value >= |list| ==> r == list + [c]
  {
    match editing
    case Some(i) => if i < |list| then list[i := c] else list + [c]
    case None => list + [c]
  }

  /** `lanzarProyecto` after the click: session lookup, then `createFullProject`. */
  function Launch(b: Oracle, log: Log, form: ProjectForm, now: nat): (run: Run<Row>)
    ensures |run.log| > |log| && run.log[..|log| + 1] == log + [GetUser]
    ensures b.call(log, GetUser).Failed? ==> run == Run(log + [GetUser], Err(SessionExpiredMessage))
  {
    match b.call(log, GetUser)
    case Failed(_) => Run(log + [GetUser], Err(SessionExpiredMessage))
    case Done(user) =>
      var commit := ProjectCommit(b, log + [GetUser], form, user.id, now);
      assert commit.log[..|log| + 1] == (commit.log[..|log| + 2])[..|log| + 1];
      commit
  }

  class NewProjectPage {
    var step: int
    var skipScript: bool
    var showCharModal: bool
    var newChar: DraftCharacter
    var formData: ProjectForm
    var editingIndex: Option<nat>
    var buscando: bool
    var resultadosBusqueda: seq<Profile>
    var showConfirmModal: bool
    var status: Status
    /** Calls issued to the backend by this page. */
    var log: Log
    /** Where the page navigated, if it did. */
    var route: Option<string>

    /** The step stays in 0..3; an attached file means skipping is off
        (the effect on `formData.archivo`); at most five search results. */
    ghost predicate Valid()
      reads this
    {
      && 0 <= step <= LastStep
      && (formData.archivo.Some? ==> !skipScript)
      && |resultadosBusqueda| <= SearchLimit
    }

    predicate Locked()
      reads this
    {
      IsLocked(step, formData.archivo.Some?, skipScript)
    }

    constructor ()
      ensures Valid()
      ensures step == 0 && !skipScript && !showCharModal && newChar == BlankCharacter
      ensures formData == InitialForm && editingIndex == None && !buscando
      ensures resultadosBusqueda == [] && !showConfirmModal
      ensures status == Status(false, "", Success) && log == [] && route == None
    {
      step := 0;
      skipScript := false;
      showCharModal := false;
      newChar := BlankCharacter;
      formData := InitialForm;
      editingIndex := None;
      buscando := false;
      resultadosBusqueda := [];
      showConfirmModal := false;
      status := Status(false, "", Success);
      log := [];
      route := None;
    }

    /** `handleNext`: no move while locked, else one step on, at most to 3. */
    method HandleNext()
      requires Valid()
      modifies this`step
      ensures Valid()
      ensures step == NextStep(old(step), old(Locked()))
      ensures old(Locked()) ==> step == old(step)
      ensures !old(Locked()) && old(step) < LastStep ==> step == old(step) + 1
    {
      if !Locked() {
        step := Min(step + 1, LastStep);
      }
    }

    /** `handleBack`: one step back, never below 0. */
    method HandleBack()
      requires Valid()
      modifies this`step
      ensures Valid()
      ensures step == PrevStep(old(step))
      ensures old(step) > 0 ==> step == old(step) - 1
    {
      step := Max(step - 1, 0);
    }

    /** The primary button: disabled while locked or busy; on step 3 it opens
        the confirmation prompt instead of advancing. */
    method PrimaryClick()
      requires Valid()
      modifies this`step, this`showConfirmModal
      ensures Valid()
      ensures old(Locked() || buscando) ==> step == old(step) && showConfirmModal == old(showConfirmModal)
      ensures !old(Locked() || buscando) && old(step) == LastStep ==> step == LastStep && showConfirmModal
      ensures !old(Locked() || buscando) && old(step) < LastStep ==>
        step == old(step) + 1 && showConfirmModal == old(showConfirmModal)
    {
      if Locked() || buscando {
        return;
      }
      if step == LastStep {
        showConfirmModal := true;
      } else {
        HandleNext();
      }
    }

    /** The script input's `onChange` with the picked file, if any: a
        rejected file only raises the error banner; an accepted one only
        becomes `archivo`, and the effect on `archivo` then clears skipping. */
    method PickScript(picked: Option<File>)
      requires Valid()
      modifies this`formData, this`skipScript, this`status
      ensures Valid()
      ensures picked.None? ==> formData == old(formData) && skipScript == old(skipScript) && status == old(status)
      ensures picked.Some? && CheckScript(picked.value).Rejected? ==>
        && formData == old(formData) && skipScript == old(skipScript)
        && status == Status(true, CheckScript(picked.value).message, Error)
      ensures picked.Some? && CheckScript(picked.value) == Accepted ==>
        && formData == old(formData).(archivo := picked)
        && !skipScript && status == old(status)
    {
      if picked.None? {
        return;
      }
      var file := picked.value;
      if file.mimeType !in ScriptTypes {
        status := Status(true, WrongTypeMessage, Error);
        return;
      }
      if file.size > MaxScriptBytes {
        status := Status(true, TooBigMessage, Error);
        return;
      }
      formData := formData.(archivo := Some(file));
      // the effect on `formData.archivo`
      skipScript := false;
    }

    /** "Quitar archivo": detaches the file; skipping stays off. */
    method RemoveScript()
      requires Valid()
      modifies this`formData
      ensures Valid()
      ensures formData == old(formData).(archivo := None)
    {
      formData := formData.(archivo := None);
    }

    /** The "continue without script" checkbox, which is disabled while a
        file is attached. */
    method SetSkipScript(checked: bool)
      requires Valid()
      modifies this`skipScript
      ensures Valid()
      ensures skipScript == if formData.archivo.None? then checked else old(skipScript)
    {
      if formData.archivo.None? {
        skipScript := checked;
      }
    }

    /** `buscarArtistas(query)`: the typed text is kept; a query of fewer than
        three characters empties the results without a lookup; otherwise one
        lookup is issued and up to five matches are kept, an error leaving the
        previous results in place. */
    method BuscarArtistas(b: Oracle, query: string)
      requires Valid()
      modifies this`newChar, this`resultadosBusqueda, this`buscando, this`log
      ensures Valid()
      ensures newChar == old(newChar).(userName := query)
      ensures |query| < MinQueryLength ==>
        resultadosBusqueda == [] && log == old(log) && buscando == old(buscando)
      ensures |query| >= MinQueryLength ==>
        var req := SelectProfiles(SearchPattern(query), SearchLimit);
        && log == old(log) + [req]
        && !buscando
        && resultadosBusqueda == match b.lookup(old(log), req)
                                 case Rows(rows) => Limit(rows, SearchLimit)
                                 case ListingFailed(_) => old(resultadosBusqueda)
    {
      newChar := newChar.(userName := query);
      if |query| < MinQueryLength {
        resultadosBusqueda := [];
        return;
      }
      buscando := true;
      var req := SelectProfiles(SearchPattern(query), SearchLimit);
      var listing := b.lookup(log, req);
      log := log + [req];
      if listing.Rows? {
        resultadosBusqueda := Limit(listing.rows, SearchLimit);
      }
      buscando := false;
    }

    /** Picking a search result attaches that profile to the character being
        drafted and closes the result list. */
    method SelectArtist(user: Profile)
      requires Valid()
      modifies this`newChar, this`resultadosBusqueda
      ensures Valid()
      ensures newChar == old(newChar).(userName := user.username, perfilUrl := user.id, fotoPerfilReal := user.avatarUrl)
      ensures resultadosBusqueda == []
    {
      newChar := newChar.(userName := user.username, perfilUrl := user.id, fotoPerfilReal := user.avatarUrl);
      resultadosBusqueda := [];
    }

    /** Typing the character's name, which is forced to upper case. */
    method SetCharName(value: string)
      requires Valid()
      modifies this`newChar
      ensures Valid()
      ensures newChar == old(newChar).(nombre := ToUpper(value))
    {
      newChar := newChar.(nombre := ToUpper(value));
    }

    /** "Añadir Personaje": only shows the modal; the remembered position and
        the scratch character are left as they are. */
    method OpenCharModal()
      requires Valid()
      modifies this`showCharModal
      ensures Valid()
      ensures showCharModal
    {
      showCharModal := true;
    }

    /** The modal's X button: only hides the modal. */
    method HideCharModal()
      requires Valid()
      modifies this`showCharModal
      ensures Valid()
      ensures !showCharModal
    {
      showCharModal := false;
    }

    /** The banner's close button: hides it, keeping its text and kind. */
    method DismissStatus()
      requires Valid()
      modifies this`status
      ensures Valid()
      ensures status == old(status).(show := false)
    {
      status := status.(show := false);
    }

    /** `prepararEdicion(index)`, reached from the character card at `index`:
        remembers the position and loads that character into the modal. */
    method PrepararEdicion(index: nat)
      requires Valid()
      requires index < |formData.personajes|
      modifies this`editingIndex, this`newChar, this`showCharModal
      ensures Valid()
      ensures editingIndex == Some(index) && newChar == formData.personajes[index] && showCharModal
    {
      editingIndex := Some(index);
      newChar := formData.personajes[index];
      showCharModal := true;
    }

    /** `agregarPersonaje`: nothing without a name; otherwise the scratch
        character overwrites the remembered position or is appended, and the
        scratch character, the remembered position and the modal are reset. */
    method AgregarPersonaje()
      requires Valid()
      modifies this`formData, this`newChar, this`editingIndex, this`showCharModal
      ensures Valid()
      ensures old(newChar.nombre) == "" ==>
        && formData == old(formData) && newChar == old(newChar)
        && editingIndex == old(editingIndex) && showCharModal == old(showCharModal)
      ensures old(newChar.nombre) != "" ==>
        && formData == old(formData).(personajes := Confirmed(old(formData.personajes), old(editingIndex), old(newChar)))
        && newChar == BlankCharacter && editingIndex == None && !showCharModal
    {
      if newChar.nombre == "" {
        return;
      }
      if editingIndex.Some? && editingIndex.value < |formData.personajes| {
        var updated := formData.personajes[editingIndex.value := newChar];
        formData := formData.(personajes := updated);
      } else {
        formData := formData.(personajes := formData.personajes + [newChar]);
      }
      newChar := BlankCharacter;
      editingIndex := None;
      showCharModal := false;
    }

    /** `cerrarModal`: hides the modal and forgets the position and the
        scratch character. */
    method CerrarModal()
      requires Valid()
      modifies this`showCharModal, this`editingIndex, this`newChar
      ensures Valid()
      ensures !showCharModal && editingIndex == None && newChar == BlankCharacter
    {
      showCharModal := false;
      editingIndex := None;
      newChar := BlankCharacter;
    }

    /** `eliminarPersonaje(index)`: removes that position; the remembered
        position is not adjusted. */
    method EliminarPersonaje(index: nat)
      requires Valid()
      modifies this`formData
      ensures Valid()
      ensures formData == old(formData).(personajes := RemoveAt(old(formData.personajes), index))
    {
      formData := formData.(personajes := RemoveAt(formData.personajes, index));
    }

    /** `lanzarProyecto` from the confirmation prompt: on success the success
        banner stays up with the button still busy and the page moves to the
        dashboard; on failure the error banner carries the message and the
        draft is left as it is. */
    method LanzarProyecto(b: Oracle, now: nat)
      requires Valid()
      modifies this`buscando, this`showConfirmModal, this`status, this`log, this`route
      ensures Valid()
      ensures !showConfirmModal
      ensures var run := Launch(b, old(log), formData, now);
        && log == run.log
        && match run.result
           case Ok(_) =>
             status == Status(true, LaunchedMessage, Success) && buscando && route == Some(DashboardRoute)
           case Err(m) =>
             && status == Status(true, if m == "" then LaunchFailedMessage else m, Error)
             && !buscando && route == old(route)
    {
      buscando := true;
      showConfirmModal := false;
      var session := b.call(log, GetUser);
      var after: Log := log + [GetUser];
      var result: Result<Row, string>;
      if session.Failed? {
        result := Err(SessionExpiredMessage);
      } else {
        after, result := CreateFullProject(b, after, formData, session.row.id, now);
      }
      log := after;
      if result.Ok? {
        status := Status(true, LaunchedMessage, Success);
        route := Some(DashboardRoute);
      } else {
        var m := result.error;
        status := Status(true, if m == "" then LaunchFailedMessage else m, Error);
        buscando := false;
      }
    }
  }

  /** Edit the second of two characters, close the modal with its X, open it
      again with "Añadir Personaje" and confirm: the second character is
      overwritten and the list does not grow. */
  method StaleEditReplaces(first: string, second: string, third: string)
    returns (lengthBefore: nat, lengthAfter: nat, last: DraftCharacter)
    requires first != "" && second != "" && third != ""
    ensures lengthBefore == 2 && lengthAfter == 2
    ensures last.nombre == ToUpper(third)
  {
    var page := new NewProjectPage();
    page.SetCharName(first);
    page.AgregarPersonaje();
    page.SetCharName(second);
    page.AgregarPersonaje();
    lengthBefore := |page.formData.personajes|;
    page.PrepararEdicion(1);
    page.HideCharModal();
    page.OpenCharModal();
    page.SetCharName(third);
    page.AgregarPersonaje();
    lengthAfter := |page.formData.personajes|;
    last := page.formData.personajes[1];
  }
}
