/** `projectService.ts`: committing a drafted project. The project row is
    inserted first; a script file, when attached, is size-checked, uploaded
    and linked; the draft characters are then inserted in one batch. Every
    failure the code checks aborts the rest, and nothing already written is
    undone; the reply to the `script_url` update is never read. */
module ProjectService {
  import opened Common
  import opened Text
  import opened Remote

  /** A character drafted in the wizard (the shape of `newChar`); "" stands
      for an empty field. `perfilUrl` holds the id of an attached profile. */
  datatype DraftCharacter = DraftCharacter(
    nombre: string,
    descripcion: string,
    fotoRef: string,
    videoRef: string,
    perfilUrl: string,
    userName: string,
    fotoPerfilReal: string)

  /** The wizard's draft project (`formData`), without the unused team list. */
  datatype ProjectForm = ProjectForm(
    titulo: string,
    descripcion: string,
    archivo: Option<File>,
    personajes: seq<DraftCharacter>,
    fecha: string,
    color: string)

  /** Calls issued so far, and the value returned or the message of the
      error thrown. */
  datatype Run<T> = Run(log: Log, result: Result<T, string>)

  const MaxScriptBytes: nat := 10 * 1024 * 1024
  const ScriptBucket := "project_scripts"
  const TooLargeMessage := "El archivo es demasiado grande (máximo 10MB)"

  /** `<projectId>/script_<timestamp>.pdf`, whatever the type of the file. */
  function ScriptPath(projectId: string, now: nat): (path: string)
    ensures |path| > |projectId| + 12
    ensures path[..|projectId| + 8] == projectId + "/script_"
    ensures path[|path| - 4..] == ".pdf"
    ensures path[|projectId| + 8..|path| - 4] == Decimal(now)
  {
    projectId + "/script_" + Decimal(now) + ".pdf"
  }

  /** Two uploads at different instants never share a path, so a script is
      never overwritten. */
  lemma ScriptPathsDiffer(projectId: string, t1: nat, t2: nat)
    requires t1 != t2
    ensures ScriptPath(projectId, t1) != ScriptPath(projectId, t2)
  {
  }

  /** The storage call of `uploadProjectScript`: no upsert, default content type. */
  function ScriptRequest(file: File, projectId: string, now: nat): Request
  {
    Upload(ScriptBucket, ScriptPath(projectId, now), file, None, false)
  }

  /** `uploadProjectScript(file, projectId)` at instant `now`. */
  function ScriptUpload(b: Oracle, log: Log, file: File, projectId: string, now: nat): (run: Run<string>)
    ensures file.size > MaxScriptBytes ==> run == Run(log, Err(TooLargeMessage))
    ensures file.size <= MaxScriptBytes ==> run.log == log + [ScriptRequest(file, projectId, now)]
    ensures file.size <= MaxScriptBytes ==>
      match b.call(log, ScriptRequest(file, projectId, now))
      case Failed(e) => run.result == Err(e.message)
      case Done(_) => run.result == Ok(b.publicUrl(ScriptBucket, ScriptPath(projectId, now)))
  {
    if file.size > MaxScriptBytes then Run(log, Err(TooLargeMessage))
    else
      var path := ScriptPath(projectId, now);
      var upload := Upload(ScriptBucket, path, file, None, false);
      match b.call(log, upload)
      case Failed(e) => Run(log + [upload], Err(e.message))
      case Done(_) => Run(log + [upload], Ok(b.publicUrl(ScriptBucket, path)))
  }

  /** The `project_characters` row of one draft character. */
  function CharacterRowOf(projectId: string, p: DraftCharacter): (row: CharacterRow)
    ensures row.projectId == projectId && row.characterName == p.nombre
    ensures row.description == p.descripcion
    ensures row.imageRefUrl == p.fotoRef && row.videoRefUrl == p.videoRef
    ensures row.assignedProfileId == if p.perfilUrl == "" then None else Some(p.perfilUrl)
  {
    CharacterRow(projectId, p.nombre, p.descripcion, p.fotoRef, p.videoRef,
                 if p.perfilUrl != "" then Some(p.perfilUrl) else None)
  }

  /** `formData.personajes.map(...)`: one row per draft character, in order. */
  function CharacterRows(projectId: string, ps: seq<DraftCharacter>): (rows: seq<CharacterRow>)
    ensures |rows| == |ps|
    ensures forall k :: 0 <= k < |ps| ==> rows[k] == CharacterRowOf(projectId, ps[k])
  {
    seq(|ps|, k requires 0 <= k < |ps| => CharacterRowOf(projectId, ps[k]))
  }

  /** The project insert: upper-cased title, the rest passed through. */
  function ProjectInsert(form: ProjectForm, userId: string): Request
  {
    InsertProject(ToUpper(form.titulo), form.descripcion, userId, form.fecha, form.color)
  }

  /** Step 2 of `createFullProject` for the created project: with a file,
      upload it and then link its URL (the update's own answer is ignored);
      without one, nothing. Yields the script URL, if any. */
  function ScriptPhase(b: Oracle, log: Log, form: ProjectForm, projectId: string, now: nat): (run: Run<Option<string>>)
    ensures |log| <= |run.log| <= |log| + 2 && run.log[..|log|] == log
    ensures forall k :: |log| <= k < |run.log| ==> !run.log[k].InsertCharacters?
    ensures form.archivo.None? ==> run == Run(log, Ok(None))
    ensures run.result.Ok? ==> (run.result.value.Some? <==> form.archivo.Some?)
  {
    match form.archivo
    case None => Run(log, Ok(None))
    case Some(file) =>
      var up := ScriptUpload(b, log, file, projectId, now);
      match up.result
      case Err(m) => Run(up.log, Err(m))
      case Ok(url) => Run(up.log + [UpdateScriptUrl(projectId, url)], Ok(Some(url)))
  }

  /** Step 3 of `createFullProject`: one batched insert when there are
      characters, none otherwise. */
  function CharacterPhase(b: Oracle, log: Log, project: Row, ps: seq<DraftCharacter>): (run: Run<Row>)
    ensures |log| <= |run.log| <= |log| + 1 && run.log[..|log|] == log
    ensures run.result.Ok? ==> run.result.value == project
    ensures |run.log| == |log| + 1 <==> ps != []
  {
    if |ps| > 0 then
      var batch := InsertCharacters(CharacterRows(project.id, ps));
      match b.call(log, batch)
      case Failed(e) => Run(log + [batch], Err(e.message))
      case Done(_) => Run(log + [batch], Ok(project))
    else Run(log, Ok(project))
  }

  /** `createFullProject(formData, userId)` at instant `now`: the calls it
      issues, in order, and the project it returns or the message it throws. */
  function ProjectCommit(b: Oracle, log: Log, form: ProjectForm, userId: string, now: nat): (run: Run<Row>)
    ensures |run.log| > |log| && run.log[..|log| + 1] == log + [ProjectInsert(form, userId)]
  {
    var insert := ProjectInsert(form, userId);
    match b.call(log, insert)
    case Failed(e) => Run(log + [insert], Err(e.message))
    case Done(project) =>
      var script := ScriptPhase(b, log + [insert], form, project.id, now);
      match script.result
      case Err(m) => Run(script.log, Err(m))
      case Ok(_) => CharacterPhase(b, script.log, project, form.personajes)
  }

  /** A failed project insert is thrown at once: nothing else is issued. */
  lemma ProjectInsertFailureAborts(b: Oracle, log: Log, form: ProjectForm, userId: string, now: nat)
    requires b.call(log, ProjectInsert(form, userId)).Failed?
    ensures ProjectCommit(b, log, form, userId, now)
         == Run(log + [ProjectInsert(form, userId)], Err(b.call(log, ProjectInsert(form, userId)).error.message))
  {
  }

  /** Without a script file no upload and no `script_url` update is issued. */
  lemma NoScriptNoUpload(b: Oracle, log: Log, form: ProjectForm, userId: string, now: nat)
    requires form.archivo.None?
    ensures var run := ProjectCommit(b, log, form, userId, now);
      forall k :: |log| <= k < |run.log| ==> !run.log[k].Upload? && !run.log[k].UpdateScriptUrl?
  {
  }

  /** An oversized script is refused before any storage call, and the
      characters are not inserted. */
  lemma OversizedScriptRefused(b: Oracle, log: Log, form: ProjectForm, userId: string, now: nat)
    requires form.archivo.Some? && form.archivo.value.size > MaxScriptBytes
    requires b.call(log, ProjectInsert(form, userId)).Done?
    ensures ProjectCommit(b, log, form, userId, now) == Run(log + [ProjectInsert(form, userId)], Err(TooLargeMessage))
  {
  }

  /** A failed script upload is thrown: the upload is the last call, so
      neither the link update nor the character insert is issued. */
  lemma ScriptUploadFailureAborts(b: Oracle, log: Log, form: ProjectForm, userId: string, now: nat)
    requires form.archivo.Some? && form.archivo.value.size <= MaxScriptBytes
    requires b.call(log, ProjectInsert(form, userId)).Done?
    requires var l1 := log + [ProjectInsert(form, userId)];
      var id := b.call(log, ProjectInsert(form, userId)).row.id;
      b.call(l1, ScriptRequest(form.archivo.value, id, now)).Failed?
    ensures var l1 := log + [ProjectInsert(form, userId)];
      var id := b.call(log, ProjectInsert(form, userId)).row.id;
      var up := ScriptRequest(form.archivo.value, id, now);
      ProjectCommit(b, log, form, userId, now) == Run(l1 + [up], Err(b.call(l1, up).error.message))
  {
  }

  /** The characters go in one batched insert, only as the last call, with
      one row per draft character in draft order; it is issued exactly when
      the project was created, the script step (if any) succeeded, and the
      draft has characters. A successful commit returns the inserted project. */
  lemma CharactersInsertedOnce(b: Oracle, log: Log, form: ProjectForm, userId: string, now: nat)
    ensures var run := ProjectCommit(b, log, form, userId, now);
      var reply := b.call(log, ProjectInsert(form, userId));
      && (forall k :: |log| <= k < |run.log| - 1 ==> !run.log[k].InsertCharacters?)
      && (run.log[|run.log| - 1].InsertCharacters? <==>
            && reply.Done?
            && ScriptPhase(b, log + [ProjectInsert(form, userId)], form, reply.row.id, now).result.Ok?
            && form.personajes != [])
      && (run.log[|run.log| - 1].InsertCharacters? ==>
            run.log[|run.log| - 1].rows == CharacterRows(reply.row.id, form.personajes))
      && (run.result.Ok? ==> reply.Done? && run.result.value == reply.row)
  {
    var run := ProjectCommit(b, log, form, userId, now);
    var insert := ProjectInsert(form, userId);
    var reply := b.call(log, insert);
    if reply.Done? {
      var script := ScriptPhase(b, log + [insert], form, reply.row.id, now);
      assert |script.log| <= |log| + 3;
      assert forall k :: |log| <= k < |script.log| ==> !script.log[k].InsertCharacters?;
      if script.result.Ok? {
        var chars := CharacterPhase(b, script.log, reply.row, form.personajes);
        assert run == chars;
        assert run.log[..|script.log|] == script.log;
      }
    }
  }

  /** An attached script that passes the size check and uploads is linked
      at once: the `script_url` update carrying its public URL follows the
      upload, and that URL is the step's result. */
  lemma ScriptLinkedAfterUpload(b: Oracle, log: Log, form: ProjectForm, projectId: string, now: nat)
    requires form.archivo.Some? && form.archivo.value.size <= MaxScriptBytes
    requires b.call(log, ScriptRequest(form.archivo.value, projectId, now)).Done?
    ensures var url := b.publicUrl(ScriptBucket, ScriptPath(projectId, now));
      ScriptPhase(b, log, form, projectId, now)
        == Run(log + [ScriptRequest(form.archivo.value, projectId, now), UpdateScriptUrl(projectId, url)], Ok(Some(url)))
  {
  }

  /** With characters, the batch is the one call of the step; a failed batch
      is thrown with its message and a successful one yields the project. */
  lemma CharacterBatchOutcome(b: Oracle, log: Log, project: Row, ps: seq<DraftCharacter>)
    requires ps != []
    ensures var batch := InsertCharacters(CharacterRows(project.id, ps));
      var run := CharacterPhase(b, log, project, ps);
      && run.log == log + [batch]
      && (b.call(log, batch).Failed? ==> run.result == Err(b.call(log, batch).error.message))
      && (b.call(log, batch).Done? ==> run.result == Ok(project))
  {
  }

  /** Over the whole commit: when the last call is the character batch, a
      failed batch is thrown with its message and a successful one returns
      the project. */
  lemma CharacterFailureThrown(b: Oracle, log: Log, form: ProjectForm, userId: string, now: nat)
    ensures var run := ProjectCommit(b, log, form, userId, now);
      var n := |run.log|;
      run.log[n - 1].InsertCharacters? ==>
        && (b.call(run.log[..n - 1], run.log[n - 1]).Failed? ==>
              run.result == Err(b.call(run.log[..n - 1], run.log[n - 1]).error.message))
        && (b.call(run.log[..n - 1], run.log[n - 1]).Done? ==>
              run.result == Ok(b.call(log, ProjectInsert(form, userId)).row))
  {
    var run := ProjectCommit(b, log, form, userId, now);
    var insert := ProjectInsert(form, userId);
    var reply := b.call(log, insert);
    CharactersInsertedOnce(b, log, form, userId, now);
    if run.log[|run.log| - 1].InsertCharacters? {
      var script := ScriptPhase(b, log + [insert], form, reply.row.id, now);
      var batch := InsertCharacters(CharacterRows(reply.row.id, form.personajes));
      CharacterBatchOutcome(b, script.log, reply.row, form.personajes);
      assert run == CharacterPhase(b, script.log, reply.row, form.personajes);
      assert run.log[..|run.log| - 1] == script.log;
    }
  }

  /** `uploadProjectScript`: throws before any storage call when the file is
      too large, rethrows a storage error, else returns the public URL. */
  method UploadProjectScript(b: Oracle, log: Log, file: File, projectId: string, now: nat)
    returns (after: Log, result: Result<string, string>)
    ensures Run(after, result) == ScriptUpload(b, log, file, projectId, now)
  {
    if file.size > MaxScriptBytes {
      return log, Err(TooLargeMessage);
    }
    var filePath := ScriptPath(projectId, now);
    var upload := Upload(ScriptBucket, filePath, file, None, false);
    after := log + [upload];
    var reply := b.call(log, upload);
    if reply.Failed? {
      return after, Err(reply.error.message);
    }
    result := Ok(b.publicUrl(ScriptBucket, filePath));
  }

  /** `createFullProject`: the ordered calls, each awaited in turn. */
  method CreateFullProject(b: Oracle, log: Log, form: ProjectForm, userId: string, now: nat)
    returns (after: Log, result: Result<Row, string>)
    ensures Run(after, result) == ProjectCommit(b, log, form, userId, now)
  {
    var insert := ProjectInsert(form, userId);
    after := log + [insert];
    var created := b.call(log, insert);
    if created.Failed? {
      return after, Err(created.error.message);
    }
    var project := created.row;
    if form.archivo.Some? {
      var scriptUrl;
      after, scriptUrl := UploadProjectScript(b, after, form.archivo.value, project.id, now);
      if scriptUrl.Err? {
        return after, Err(scriptUrl.error);
      }
      after := after + [UpdateScriptUrl(project.id, scriptUrl.value)];
    }
    if |form.personajes| > 0 {
      var batch := InsertCharacters(CharacterRows(project.id, form.personajes));
      var charReply := b.call(after, batch);
      after := after + [batch];
      if charReply.Failed? {
        return after, Err(charReply.error.message);
      }
    }
    result := Ok(project);
  }
}
