/** `companias/nueva/page.tsx`: founding a company. Members are searched in
    the directory and staged in a local pending list (distinct e-mails); on
    submit the session is resolved, the company inserted, its logo uploaded,
    the founder made Director and every staged member invited, in that order.
    Every failure the code checks stops the founding, and nothing is undone;
    a failed logo upload is swallowed, and the reply to the `image_url`
    update is never read. */
module CompanyFounding {
  import opened Common
  import opened Text
  import opened Remote

  datatype Role = Actor | Tecnico | AsistenteDeDireccion

  function RoleName(r: Role): string
  {
    match r
    case Actor => "Actor"
    case Tecnico => "Técnico"
    case AsistenteDeDireccion => "Asistente de Dirección"
  }

  /** An entry of the pending list (`InvitadoTemporal`). */
  datatype Invitee = Invitee(id: string, username: string, email: string, role: Role, avatarUrl: string)

  /** The blocking error dialog (`ErrorModal`). */
  datatype Modal = Modal(title: string, message: string)

  const MinNameLength: nat := 3
  const ImageBucket := "company_images"
  const DirectorRole := "Director"
  const NoSessionMessage := "Sesión no activa"
  /** PostgreSQL's unique_violation. */
  const DuplicateCode := "23505"
  /** What reading `company.id` throws when the insert returned no company,
      in the wording of the V8 engine (Chrome, Edge, Node); other engines
      word the TypeError differently. */
  const NullIdMessage := "Cannot read properties of null (reading 'id')"
  const InvalidNameModal := Modal("Nombre inválido", "El nombre de la compañía es obligatorio.")
  const DuplicateModal := Modal("Compañía duplicada", "Ya fundaste una compañía con ese nombre. Prueba otro nombre artístico.")
  const UnexpectedTitle := "Error inesperado"
  const FallbackMessage := "Algo salió mal."

  // ---------------------------------------------------------------- naming

  /** `nombre.trim().toUpperCase()`. */
  function NormalizeName(nombre: string): string
  {
    ToUpper(Trim(nombre))
  }

  /** The normalised name is the upper-cased slice of the typed name left
      after dropping white space at both ends; it neither starts nor ends
      with white space and holds no lower-case letter. */
  lemma NormalizeNameShape(nombre: string)
    ensures var i, r := TrimOffset(nombre), NormalizeName(nombre);
      && i + |r| <= |nombre| && r == ToUpper(nombre[i..i + |r|])
      && SpaceBetween(nombre, 0, i) && SpaceBetween(nombre, i + |r|, |nombre|)
      && (r != [] ==> !IsSpace(r[0]) && !IsSpace(r[|r| - 1]))
      && (forall k :: 0 <= k < |r| ==> !IsLower(r[k]))
  {
    var t := Trim(nombre);
    TrimIsSlice(nombre);
    if t != [] {
      UpperCaseKeepsSpaces(t[0]);
      UpperCaseKeepsSpaces(t[|t| - 1]);
    }
  }

  /** The check of `fundarYReclutar`: a normalised name shorter than three
      characters (the empty one included) is refused. */
  predicate ValidName(name: string)
  {
    |name| >= MinNameLength
  }

  /** Normalising twice is normalising once. */
  lemma {:induction false} NormalizeNameIdempotent(nombre: string)
    ensures NormalizeName(NormalizeName(nombre)) == NormalizeName(nombre)
  {
    var r := NormalizeName(nombre);
    NormalizeNameShape(nombre);
    assert r == [] || (!IsSpace(r[0]) && !IsSpace(r[|r| - 1]));
    assert forall k :: 0 <= k < |r| ==> !IsLower(r[k]);
    TrimOfTrimmed(r);
    assert Trim(r) == r;
    UpperOfUpper(r);
    assert NormalizeName(r) == ToUpper(r);
  }

  lemma HamletTrimStart()
    ensures TrimStart("  hamlet  ") == "hamlet  "
  {
    var t := "hamlet  ";
    assert !IsSpace(t[0]);
    assert TrimStart(t) == t;
    var u := " hamlet  ";
    assert IsSpace(u[0]) && u[1..] == t;
    assert TrimStart(u) == t;
    var s := "  hamlet  ";
    assert IsSpace(s[0]) && s[1..] == u;
  }

  lemma HamletTrimEnd()
    ensures TrimEnd("hamlet  ") == "hamlet"
  {
    var t := "hamlet  ";
    assert t[..7] == "hamlet " && t[..6] == "hamlet";
    assert !IsSpace("hamlet"[5]);
    assert TrimEnd("hamlet") == "hamlet";
    assert TrimEnd(t) == TrimEnd(t[..7]) == TrimEnd(t[..6]);
  }

  lemma HamletUpper()
    ensures ToUpper("hamlet") == "HAMLET"
  {
    var u := ToUpper("hamlet");
    assert u[0] == 'H' && u[1] == 'A' && u[2] == 'M' && u[3] == 'L' && u[4] == 'E' && u[5] == 'T';
  }

  /** "  hamlet  " is accepted as "HAMLET"; "ab" is refused. */
  lemma HamletExample()
    ensures NormalizeName("  hamlet  ") == "HAMLET" && ValidName(NormalizeName("  hamlet  "))
    ensures !ValidName(NormalizeName("ab"))
  {
    HamletTrimStart();
    HamletTrimEnd();
    assert Trim("  hamlet  ") == "hamlet";
    HamletUpper();
  }

  /** A name made of white space only normalises to "" and is refused. */
  lemma BlankNameRefused(nombre: string)
    requires AllSpace(nombre)
    ensures NormalizeName(nombre) == []
    ensures !ValidName(NormalizeName(nombre))
  {
  }

  // --------------------------------------------------------------- staging

  predicate Invited(pending: seq<Invitee>, email: string)
  {
    exists k :: 0 <= k < |pending| && pending[k].email == email
  }

  predicate DistinctEmails(pending: seq<Invitee>)
  {
    forall i, j :: 0 <= i < j < |pending| ==> pending[i].email != pending[j].email
  }

  /** What `agregarAListaTemporal` stages: nothing without a selected user,
      for a user without an e-mail, or for an e-mail already staged;
      otherwise the selected user's id, username, e-mail and avatar with the
      chosen role. */
  function Staged(pending: seq<Invitee>, selected: Option<Profile>, role: Role): (entry: Option<Invitee>)
    ensures entry.None? <==>
      selected.None? || selected.value.email == "" || Invited(pending, selected.value.email)
    ensures entry.Some? ==>
      entry.value == Invitee(selected.value.id, selected.value.username, selected.value.email, role, selected.value.avatarUrl)
  {
    match selected
    case None => None
    case Some(u) =>
      if u.email == "" then None
      else if exists k :: 0 <= k < |pending| && pending[k].email == u.email then None
      else Some(Invitee(u.id, u.username, u.email, role, u.avatarUrl))
  }

  /** Staging keeps the e-mails of the pending list pairwise distinct. */
  lemma StagingKeepsEmailsDistinct(pending: seq<Invitee>, selected: Option<Profile>, role: Role)
    requires DistinctEmails(pending)
    requires Staged(pending, selected, role).Some?
    ensures DistinctEmails(pending + [Staged(pending, selected, role).value])
  {
    var entry := Staged(pending, selected, role).value;
    var next := pending + [entry];
    forall i, j | 0 <= i < j < |next|
      ensures next[i].email != next[j].email
    {
      if j == |pending| {
        assert next[i] == pending[i];
        assert !Invited(pending, entry.email);
      }
    }
  }

  /** Removing an entry keeps the e-mails pairwise distinct. */
  lemma RemovalKeepsEmailsDistinct(pending: seq<Invitee>, index: int)
    requires DistinctEmails(pending)
    ensures DistinctEmails(RemoveAt(pending, index))
  {
    var rest := RemoveAt(pending, index);
    if 0 <= index < |pending| {
      forall i, j | 0 <= i < j < |rest|
        ensures rest[i].email != rest[j].email
      {
        var i' := if i < index then i else i + 1;
        var j' := if j < index then j else j + 1;
        assert rest[i] == pending[i'] && rest[j] == pending[j'];
      }
    }
  }

  // ------------------------------------------------------------------ logo

  /** `<companyId>/logo.<text after the last '.' of the file name>`. */
  function LogoPath(companyId: string, fileName: string): string
  {
    companyId + "/logo." + AfterLastDot(fileName)
  }

  /** The logo path is `<companyId>/logo.` followed by the file name's
      extension: a suffix of the name without a '.', preceded by a '.'
      unless it is the whole name. */
  lemma LogoPathShape(companyId: string, fileName: string)
    ensures var path := LogoPath(companyId, fileName);
      && |path| >= |companyId| + 6 && path[..|companyId| + 6] == companyId + "/logo."
      && var ext := path[|companyId| + 6..];
      && |ext| <= |fileName| && ext == fileName[|fileName| - |ext|..]
      && '.' !in ext
      && (|ext| < |fileName| ==> fileName[|fileName| - |ext| - 1] == '.')
  {
    var path := LogoPath(companyId, fileName);
    AfterLastDotShape(fileName);
    assert path[|companyId| + 6..] == AfterLastDot(fileName);
  }

  /** The storage call of `uploadCompanyImage`: overwrite allowed, the
      file's own content type. */
  function ImageRequest(companyId: string, file: File): Request
  {
    Upload(ImageBucket, LogoPath(companyId, file.name), file, Some(file.mimeType), true)
  }

  datatype ImageRun = ImageRun(log: Log, url: Option<string>)

  /** `uploadCompanyImage(file, companyId)`: one upload; the public URL on
      success, null on an upload error. */
  function ImageUpload(b: Oracle, log: Log, companyId: string, file: File): (run: ImageRun)
    ensures run.log == log + [ImageRequest(companyId, file)]
    ensures run.url.None? <==> b.call(log, ImageRequest(companyId, file)).Failed?
    ensures run.url.Some? ==> run.url.value == b.publicUrl(ImageBucket, LogoPath(companyId, file.name))
  {
    var upload := ImageRequest(companyId, file);
    match b.call(log, upload)
    case Failed(_) => ImageRun(log + [upload], None)
    case Done(_) => ImageRun(log + [upload], Some(b.publicUrl(ImageBucket, LogoPath(companyId, file.name))))
  }

  /** The image step of `fundarYReclutar`: the upload, then the `image_url`
      update only when the upload yielded a URL that is truthy, that is,
      neither null nor empty. */
  function ImageSteps(b: Oracle, log: Log, companyId: string, file: File): Log
  {
    var up := ImageUpload(b, log, companyId, file);
    if up.url.Some? && up.url.value != "" then up.log + [UpdateCompanyImage(companyId, up.url.value)] else up.log
  }

  /** A failed logo upload is swallowed and no `image_url` update follows;
      a successful one is followed by the update with its public URL,
      unless that URL is empty. */
  lemma ImageUpdateOnlyAfterUpload(b: Oracle, log: Log, companyId: string, file: File)
    ensures var steps := ImageSteps(b, log, companyId, file);
      var upload := ImageRequest(companyId, file);
      && steps[..|log| + 1] == log + [upload]
      && (b.call(log, upload).Failed? ==> steps == log + [upload])
      && var url := b.publicUrl(ImageBucket, LogoPath(companyId, file.name));
      && (b.call(log, upload).Done? && url != "" ==> steps == log + [upload, UpdateCompanyImage(companyId, url)])
      && (b.call(log, upload).Done? && url == "" ==> steps == log + [upload])
  {
    var upload := ImageRequest(companyId, file);
    var up := ImageUpload(b, log, companyId, file);
    var steps := ImageSteps(b, log, companyId, file);
    if b.call(log, upload).Done? && b.publicUrl(ImageBucket, LogoPath(companyId, file.name)) != "" {
      var update := UpdateCompanyImage(companyId, b.publicUrl(ImageBucket, LogoPath(companyId, file.name)));
      assert up == ImageRun(log + [upload], Some(update.imageUrl));
      assert steps == (log + [upload]) + [update];
      assert (log + [upload]) + [update] == log + [upload, update];
      assert steps[..|log| + 1] == log + [upload];
    } else {
      assert steps == log + [upload];
      assert steps[..|log| + 1] == log + [upload];
    }
  }

  // ---------------------------------------------------------------- errors

  /** A thrown error: `Encoded` is the JSON-encoded company-insert error,
      `Raw` any other error, known only by its message. */
  datatype Failure = Raw(message: string) | Encoded(error: DbError)

  /** The result of `JSON.parse(err.message)`, or `{ message }` when the
      message is not JSON. */
  datatype Parsed = Parsed(code: Option<string>, message: string)

  function ParseFailure(f: Failure): Parsed
  {
    match f
    case Encoded(e) => Parsed(Some(e.code), e.message)
    case Raw(m) => Parsed(None, m)
  }

  /** The dialog for a failure: "Compañía duplicada" exactly for a
      unique-violation code; otherwise "Error inesperado" with the message,
      or the fallback text when there is none. */
  function ModalFor(f: Failure): Modal
  {
    var parsed := ParseFailure(f);
    if parsed.code == Some(DuplicateCode) then DuplicateModal
    else Modal(UnexpectedTitle, if parsed.message == "" then FallbackMessage else parsed.message)
  }

  lemma ModalForShape(f: Failure)
    ensures var m := ModalFor(f);
      && (m == DuplicateModal <==> f.Encoded? && f.error.code == DuplicateCode)
      && (m != DuplicateModal ==>
            m == Modal(UnexpectedTitle, if ParseFailure(f).message == "" then FallbackMessage else ParseFailure(f).message))
  {
  }

  // ----------------------------------------------------------- invitations

  function InviteRequest(companyId: string, inviterId: string, inv: Invitee): Request
  {
    InsertInvitation(companyId, inviterId, inv.email, RoleName(inv.role))
  }

  function InviteLink(origin: string, token: string): string
  {
    origin + "/invitacion/confirmar?token=" + token
  }

  /** Calls issued, the failure thrown if any, and the confirmation links
      of the invitations created. */
  datatype FoundingRun = FoundingRun(log: Log, failure: Option<Failure>, links: seq<string>)

  /** The calls of the run extend `log` by at most one per staged entry. */
  ghost predicate InvitesExtend(log: Log, pending: seq<Invitee>, after: Log)
  {
    |log| <= |after| <= |log| + |pending| && after[..|log|] == log
  }

  /** The calls after `log` are the staged entries' inserts, in list order. */
  ghost predicate InvitesRequested(log: Log, companyId: string, inviterId: string,
                                   pending: seq<Invitee>, after: Log)
  {
    forall k :: |log| <= k < |after| && k < |log| + |pending| ==>
      after[k] == InviteRequest(companyId, inviterId, pending[k - |log|])
  }

  /** Every insert succeeded, except a failing last one. */
  ghost predicate InvitesSucceeded(b: Oracle, log: Log, after: Log, failure: Option<Failure>)
  {
    forall k :: |log| <= k < |after| && (failure.None? || k < |after| - 1) ==>
      b.call(after[..k], after[k]).Done?
  }

  /** A run without failure went through the whole list; a failing one
      stopped at the failed insert and throws its message. */
  ghost predicate InvitesStopped(b: Oracle, log: Log, pending: seq<Invitee>, after: Log,
                                 failure: Option<Failure>)
  {
    && (failure.None? ==> |after| == |log| + |pending|)
    && (failure.Some? ==>
          && |after| > |log|
          && b.call(after[..|after| - 1], after[|after| - 1]).Failed?
          && failure.value == Raw(b.call(after[..|after| - 1], after[|after| - 1]).error.message))
  }

  /** The call at position `i` of `after` created an invitation, and `link`
      carries its token. */
  ghost predicate LinkedAt(b: Oracle, origin: string, after: Log, i: int, link: string)
  {
    && 0 <= i < |after|
    && b.call(after[..i], after[i]).Done?
    && link == InviteLink(origin, b.call(after[..i], after[i]).row.token)
  }

  /** One link per created invitation, carrying its token. */
  ghost predicate InvitesLinked(b: Oracle, log: Log, origin: string, after: Log,
                                failure: Option<Failure>, links: seq<string>)
  {
    && |log| <= |after|
    && |links| == |after| - |log| - (if failure.Some? then 1 else 0)
    && (forall k :: 0 <= k < |links| ==> LinkedAt(b, origin, after, |log| + k, links[k]))
  }

  /** What the invitation loop promises about a run that started from `log`:
      one insert per staged entry, in list order, appended to `log`; every
      insert but a failing last one succeeded; a run without failure went
      through the whole list, a failing one stopped at the failed insert
      and throws its message; one link per created invitation, carrying
      its token. */
  ghost predicate InvitesInOrder(b: Oracle, log: Log, companyId: string, inviterId: string,
                                 pending: seq<Invitee>, origin: string, run: FoundingRun)
  {
    && InvitesExtend(log, pending, run.log)
    && InvitesRequested(log, companyId, inviterId, pending, run.log)
    && InvitesSucceeded(b, log, run.log, run.failure)
    && InvitesStopped(b, log, pending, run.log, run.failure)
    && InvitesLinked(b, log, origin, run.log, run.failure, run.links)
  }

  lemma ExtendStep(log: Log, req: Request, pending: seq<Invitee>, after: Log)
    requires pending != [] && InvitesExtend(log + [req], pending[1..], after)
    ensures InvitesExtend(log, pending, after) && after[|log|] == req
  {
    PrefixOfPrefix(log + [req], after, |log|);
    assert (log + [req])[..|log|] == log;
  }

  lemma RequestedStep(log: Log, companyId: string, inviterId: string, pending: seq<Invitee>, after: Log)
    requires pending != [] && |after| > |log|
    requires after[|log|] == InviteRequest(companyId, inviterId, pending[0])
    requires InvitesRequested(log + [after[|log|]], companyId, inviterId, pending[1..], after)
    ensures InvitesRequested(log, companyId, inviterId, pending, after)
  {
    forall k | |log| + 1 <= k < |after| && k < |log| + |pending|
      ensures after[k] == InviteRequest(companyId, inviterId, pending[k - |log|])
    {
      assert pending[1..][k - (|log| + 1)] == pending[k - |log|];
    }
  }

  lemma SucceededStep(b: Oracle, log: Log, after: Log, failure: Option<Failure>)
    requires |after| > |log| && after[..|log|] == log
    requires b.call(log, after[|log|]).Done?
    requires InvitesSucceeded(b, log + [after[|log|]], after, failure)
    ensures InvitesSucceeded(b, log, after, failure)
  {
  }

  lemma StoppedStep(b: Oracle, log: Log, req: Request, pending: seq<Invitee>, after: Log,
                    failure: Option<Failure>)
    requires pending != []
    requires InvitesStopped(b, log + [req], pending[1..], after, failure)
    ensures InvitesStopped(b, log, pending, after, failure)
  {
  }

  lemma LinkedStep(b: Oracle, log: Log, origin: string, after: Log, failure: Option<Failure>,
                   invite: Row, links: seq<string>)
    requires |after| > |log| && after[..|log|] == log
    requires b.call(log, after[|log|]) == Done(invite)
    requires InvitesLinked(b, log + [after[|log|]], origin, after, failure, links)
    ensures InvitesLinked(b, log, origin, after, failure, [InviteLink(origin, invite.token)] + links)
  {
    var all := [InviteLink(origin, invite.token)] + links;
    forall k | 0 <= k < |all|
      ensures LinkedAt(b, origin, after, |log| + k, all[k])
    {
      if k == 0 {
        assert after[..|log| + k] == log;
      } else {
        var j := k - 1;
        assert all[k] == links[j];
        assert LinkedAt(b, origin, after, |log + [after[|log|]]| + j, links[j]);
      }
    }
  }

  /** A created first invitation followed by a run over the rest of the list
      is a run over the whole list. */
  lemma InvitesInOrderStep(b: Oracle, log: Log, companyId: string, inviterId: string,
                           pending: seq<Invitee>, origin: string, invite: Row, rest: FoundingRun)
    requires pending != []
    requires b.call(log, InviteRequest(companyId, inviterId, pending[0])) == Done(invite)
    requires InvitesInOrder(b, log + [InviteRequest(companyId, inviterId, pending[0])],
                            companyId, inviterId, pending[1..], origin, rest)
    ensures InvitesInOrder(b, log, companyId, inviterId, pending, origin,
                           FoundingRun(rest.log, rest.failure, [InviteLink(origin, invite.token)] + rest.links))
  {
    var req := InviteRequest(companyId, inviterId, pending[0]);
    ExtendStep(log, req, pending, rest.log);
    RequestedStep(log, companyId, inviterId, pending, rest.log);
    SucceededStep(b, log, rest.log, rest.failure);
    StoppedStep(b, log, req, pending, rest.log, rest.failure);
    LinkedStep(b, log, origin, rest.log, rest.failure, invite, rest.links);
  }

  /** The invitation loop: one insert per staged entry in list order; the
      first failed insert is thrown and the rest are not attempted; every
      created invitation yields a link with its token. */
  function Invitations(b: Oracle, log: Log, companyId: string, inviterId: string,
                       pending: seq<Invitee>, origin: string): FoundingRun
    decreases |pending|
  {
    if pending == [] then FoundingRun(log, None, [])
    else
      var req := InviteRequest(companyId, inviterId, pending[0]);
      match b.call(log, req)
      case Failed(e) => FoundingRun(log + [req], Some(Raw(e.message)), [])
      case Done(invite) =>
        var rest := Invitations(b, log + [req], companyId, inviterId, pending[1..], origin);
        FoundingRun(rest.log, rest.failure, [InviteLink(origin, invite.token)] + rest.links)
  }

  /** The invitation loop keeps list order, stops at the first failure and
      yields one link per created invitation. */
  lemma {:induction false} InvitationsInOrder(b: Oracle, log: Log, companyId: string, inviterId: string,
                                              pending: seq<Invitee>, origin: string)
    ensures InvitesInOrder(b, log, companyId, inviterId, pending, origin,
                           Invitations(b, log, companyId, inviterId, pending, origin))
    decreases |pending|
  {
    if pending != [] {
      var req := InviteRequest(companyId, inviterId, pending[0]);
      match b.call(log, req)
      case Failed(e) =>
        assert (log + [req])[..|log|] == log;
      case Done(invite) =>
        InvitationsInOrder(b, log + [req], companyId, inviterId, pending[1..], origin);
        var rest := Invitations(b, log + [req], companyId, inviterId, pending[1..], origin);
        InvitesInOrderStep(b, log, companyId, inviterId, pending, origin, invite, rest);
    }
  }

  /** One step of the invitation loop over `pending[i..]`. */
  lemma InvitationsFrom(b: Oracle, log: Log, companyId: string, inviterId: string,
                        pending: seq<Invitee>, i: nat, origin: string)
    requires i < |pending|
    ensures var req := InviteRequest(companyId, inviterId, pending[i]);
      var run := Invitations(b, log, companyId, inviterId, pending[i..], origin);
      && (b.call(log, req).Failed? ==> run == FoundingRun(log + [req], Some(Raw(b.call(log, req).error.message)), []))
      && (b.call(log, req).Done? ==>
            var rest := Invitations(b, log + [req], companyId, inviterId, pending[i + 1..], origin);
            run == FoundingRun(rest.log, rest.failure, [InviteLink(origin, b.call(log, req).row.token)] + rest.links))
  {
    assert pending[i..][0] == pending[i] && pending[i..][1..] == pending[i + 1..];
  }

  /** `for (const inv of invitacionesPendientes)`: the loop of inserts. */
  method SendInvitations(b: Oracle, log: Log, companyId: string, inviterId: string,
                         pending: seq<Invitee>, origin: string)
    returns (after: Log, failure: Option<Failure>, links: seq<string>)
    ensures FoundingRun(after, failure, links) == Invitations(b, log, companyId, inviterId, pending, origin)
  {
    after, failure, links := log, None, [];
    assert pending[0..] == pending;
    for i := 0 to |pending|
      invariant var rest := Invitations(b, after, companyId, inviterId, pending[i..], origin);
        Invitations(b, log, companyId, inviterId, pending, origin)
          == FoundingRun(rest.log, rest.failure, links + rest.links)
    {
      var req := InviteRequest(companyId, inviterId, pending[i]);
      var reply := b.call(after, req);
      InvitationsFrom(b, after, companyId, inviterId, pending, i, origin);
      after := after + [req];
      if reply.Failed? {
        assert links + [] == links;
        return after, Some(Raw(reply.error.message)), links;
      }
      var link := InviteLink(origin, reply.row.token);
      ghost var rest := Invitations(b, after, companyId, inviterId, pending[i + 1..], origin);
      assert links + ([link] + rest.links) == (links + [link]) + rest.links;
      links := links + [link];
    }
    assert pending[|pending|..] == [];
  }

  // ---------------------------------------------------------------- commit

  function DirectorMembership(companyId: string, userId: string, joinedAt: string): Request
  {
    InsertMember(companyId, userId, DirectorRole, true, joinedAt)
  }

  /** A prefix of a prefix is a prefix. */
  lemma PrefixOfPrefix(shorter: Log, longer: Log, n: nat)
    requires n <= |shorter| <= |longer| && longer[..|shorter|] == shorter
    ensures longer[..n] == shorter[..n]
  {
  }

  /** After the company exists: the Director membership, then the
      invitations. */
  function Staffed(b: Oracle, log: Log, companyId: string, userId: string, joinedAt: string,
                   pending: seq<Invitee>, origin: string): FoundingRun
  {
    var member := DirectorMembership(companyId, userId, joinedAt);
    match b.call(log, member)
    case Failed(e) => FoundingRun(log + [member], Some(Raw(e.message)), [])
    case Done(_) => Invitations(b, log + [member], companyId, userId, pending, origin)
  }

  /** The staffing stage starts with the Director membership, and anything
      it throws is a raw error. */
  lemma StaffedShape(b: Oracle, log: Log, companyId: string, userId: string, joinedAt: string,
                     pending: seq<Invitee>, origin: string)
    ensures var run := Staffed(b, log, companyId, userId, joinedAt, pending, origin);
      && |run.log| > |log| && run.log[..|log| + 1] == log + [DirectorMembership(companyId, userId, joinedAt)]
      && (run.failure.Some? ==> run.failure.value.Raw?)
  {
    var member := DirectorMembership(companyId, userId, joinedAt);
    if b.call(log, member).Done? {
      InvitationsInOrder(b, log + [member], companyId, userId, pending, origin);
      var run := Invitations(b, log + [member], companyId, userId, pending, origin);
      PrefixOfPrefix(log + [member], run.log, |log| + 1);
    } else {
      assert (log + [member])[..|log| + 1] == log + [member];
    }
  }

  /** After the session is known: the company insert; the image step, which
      reads the new company's id before the insert's error is looked at;
      then the insert's error; then `Staffed`. */
  function Founded(b: Oracle, log: Log, name: string, image: Option<File>, userId: string,
                   joinedAt: string, pending: seq<Invitee>, origin: string): FoundingRun
  {
    var insert := InsertCompany(name, userId);
    var created := b.call(log, insert);
    var afterInsert := log + [insert];
    if image.Some? && created.Failed? then FoundingRun(afterInsert, Some(Raw(NullIdMessage)), [])
    else
      var afterImage := if image.Some? then ImageSteps(b, afterInsert, created.row.id, image.value) else afterInsert;
      match created
      case Failed(e) => FoundingRun(afterImage, Some(Encoded(e)), [])
      case Done(company) => Staffed(b, afterImage, company.id, userId, joinedAt, pending, origin)
  }

  /** A log that starts with `log + [first]` and is extended by a log that
      starts with `mid + [next]` still starts with `log + [first]`. */
  lemma StartsThrough(log: Log, first: Request, mid: Log, next: Request, final: Log)
    requires |mid| > |log| && mid[..|log| + 1] == log + [first]
    requires |final| > |mid| && final[..|mid| + 1] == mid + [next]
    ensures |final| > |log| && final[..|log| + 1] == log + [first]
  {
    assert final[..|log| + 1] == final[..|mid| + 1][..|log| + 1];
    assert (mid + [next])[..|log| + 1] == mid[..|log| + 1];
  }

  /** The company insert is the first call of the stage. */
  lemma FoundedStarts(b: Oracle, log: Log, name: string, image: Option<File>, userId: string,
                      joinedAt: string, pending: seq<Invitee>, origin: string)
    ensures var run := Founded(b, log, name, image, userId, joinedAt, pending, origin);
      |run.log| > |log| && run.log[..|log| + 1] == log + [InsertCompany(name, userId)]
  {
    var insert := InsertCompany(name, userId);
    var created := b.call(log, insert);
    var afterInsert := log + [insert];
    var run := Founded(b, log, name, image, userId, joinedAt, pending, origin);
    assert afterInsert[..|log| + 1] == log + [insert];
    if image.Some? && created.Failed? {
      return;
    }
    var afterImage := if image.Some? then ImageSteps(b, afterInsert, created.row.id, image.value) else afterInsert;
    assert |afterImage| > |log| && afterImage[..|log| + 1] == log + [insert] by {
      if image.Some? {
        ImageUpdateOnlyAfterUpload(b, afterInsert, created.row.id, image.value);
        StartsThrough(log, insert, afterInsert, ImageRequest(created.row.id, image.value), afterImage);
      }
    }
    if created.Failed? {
      return;
    }
    var company := created.row;
    StaffedShape(b, afterImage, company.id, userId, joinedAt, pending, origin);
    StartsThrough(log, insert, afterImage, DirectorMembership(company.id, userId, joinedAt), run.log);
  }

  /** The company insert's own error is thrown as is only when no image is
      attached, and then nothing follows it. */
  lemma FoundedEncoded(b: Oracle, log: Log, name: string, image: Option<File>, userId: string,
                       joinedAt: string, pending: seq<Invitee>, origin: string)
    ensures var run := Founded(b, log, name, image, userId, joinedAt, pending, origin);
      run.failure.Some? && run.failure.value.Encoded? ==>
        && image.None?
        && run.log == log + [InsertCompany(name, userId)]
        && b.call(log, InsertCompany(name, userId)) == Failed(run.failure.value.error)
  {
    var created := b.call(log, InsertCompany(name, userId));
    if created.Done? {
      StaffedShape(b, log + [InsertCompany(name, userId)], created.row.id, userId, joinedAt, pending, origin);
      if image.Some? {
        var afterImage := ImageSteps(b, log + [InsertCompany(name, userId)], created.row.id, image.value);
        StaffedShape(b, afterImage, created.row.id, userId, joinedAt, pending, origin);
      }
    }
  }

  /** The remote part of `fundarYReclutar` for a valid name. */
  function Founding(b: Oracle, log: Log, name: string, image: Option<File>,
                    joinedAt: string, pending: seq<Invitee>, origin: string): FoundingRun
  {
    match b.call(log, GetUser)
    case Failed(_) => FoundingRun(log + [GetUser], Some(Raw(NoSessionMessage)), [])
    case Done(user) => Founded(b, log + [GetUser], name, image, user.id, joinedAt, pending, origin)
  }

  /** The session lookup is always the first call of a founding. */
  lemma FoundingShape(b: Oracle, log: Log, name: string, image: Option<File>,
                      joinedAt: string, pending: seq<Invitee>, origin: string)
    ensures var run := Founding(b, log, name, image, joinedAt, pending, origin);
      |run.log| > |log| && run.log[..|log| + 1] == log + [GetUser]
  {
    var session := b.call(log, GetUser);
    if session.Done? {
      var run := Founded(b, log + [GetUser], name, image, session.row.id, joinedAt, pending, origin);
      FoundedStarts(b, log + [GetUser], name, image, session.row.id, joinedAt, pending, origin);
      PrefixOfPrefix(log + [GetUser] + [InsertCompany(name, session.row.id)], run.log, |log| + 1);
    } else {
      assert (log + [GetUser])[..|log| + 1] == log + [GetUser];
    }
  }

  /** Only the company insert can lead to the "Compañía duplicada" dialog,
      and only when no image is attached: the dialog then reports the
      insert's unique violation and no further call was issued. */
  lemma DuplicateOnlyFromCompanyInsert(b: Oracle, log: Log, name: string, image: Option<File>,
                                       joinedAt: string, pending: seq<Invitee>, origin: string)
    ensures var run := Founding(b, log, name, image, joinedAt, pending, origin);
      run.failure.Some? && ModalFor(run.failure.value) == DuplicateModal ==>
        && image.None?
        && b.call(log, GetUser).Done?
        && run.log == log + [GetUser, InsertCompany(name, b.call(log, GetUser).row.id)]
        && b.call(log + [GetUser], run.log[|log| + 1]) == Failed(run.failure.value.error)
        && run.failure.value.error.code == DuplicateCode
  {
    var run := Founding(b, log, name, image, joinedAt, pending, origin);
    if b.call(log, GetUser).Done? {
      var user := b.call(log, GetUser).row;
      assert run == Founded(b, log + [GetUser], name, image, user.id, joinedAt, pending, origin);
      FoundedEncoded(b, log + [GetUser], name, image, user.id, joinedAt, pending, origin);
    }
  }

  /** With an image attached, a failed company insert is hidden: reading the
      missing company's id throws first, no upload is issued, and the dialog
      is the generic one carrying that error's message. */
  lemma ImageHidesInsertError(b: Oracle, log: Log, name: string, image: Option<File>,
                              joinedAt: string, pending: seq<Invitee>, origin: string)
    requires image.Some? && b.call(log, GetUser).Done?
    requires b.call(log + [GetUser], InsertCompany(name, b.call(log, GetUser).row.id)).Failed?
    ensures var run := Founding(b, log, name, image, joinedAt, pending, origin);
      && run.log == log + [GetUser, InsertCompany(name, b.call(log, GetUser).row.id)]
      && run.failure == Some(Raw(NullIdMessage))
      && ModalFor(run.failure.value) == Modal(UnexpectedTitle, NullIdMessage)
  {
  }

  predicate NoInvitation(l: Log, from: nat)
  {
    forall k :: from <= k < |l| ==> !l[k].InsertInvitation?
  }

  /** Every invitation insert issued at or after `from` is preceded, at or
      after `from`, by a membership insert with role "Director" for the same
      company, and that insert succeeded. */
  ghost predicate DirectorFirst(b: Oracle, l: Log, from: nat)
  {
    forall k :: from <= k < |l| && l[k].InsertInvitation? ==>
      exists j :: from <= j < k && l[j].InsertMember? && l[j].role == DirectorRole
               && l[j].companyId == l[k].companyId
               && b.call(l[..j], l[j]).Done?
  }

  /** From a log without invitations after `from`, every invitation of the
      staffing stage follows the successful Director membership. */
  lemma StaffedDirectorFirst(b: Oracle, log: Log, from: nat, companyId: string, userId: string,
                             joinedAt: string, pending: seq<Invitee>, origin: string)
    requires from <= |log| && NoInvitation(log, from)
    ensures DirectorFirst(b, Staffed(b, log, companyId, userId, joinedAt, pending, origin).log, from)
  {
    var run := Staffed(b, log, companyId, userId, joinedAt, pending, origin);
    var member := DirectorMembership(companyId, userId, joinedAt);
    if b.call(log, member).Done? {
      InvitationsInOrder(b, log + [member], companyId, userId, pending, origin);
      var j := |log|;
      PrefixOfPrefix(log + [member], run.log, j);
      assert run.log[..j] == log && run.log[j] == member;
      assert forall k :: from <= k < |run.log| && run.log[k].InsertInvitation? ==>
        j < k && run.log[k].companyId == companyId;
    } else {
      assert NoInvitation(run.log, from);
    }
  }

  /** The same from the company insert on: the insert and the image step
      issue no invitation. */
  lemma FoundedDirectorFirst(b: Oracle, log: Log, from: nat, name: string, image: Option<File>,
                             userId: string, joinedAt: string, pending: seq<Invitee>, origin: string)
    requires from <= |log| && NoInvitation(log, from)
    ensures DirectorFirst(b, Founded(b, log, name, image, userId, joinedAt, pending, origin).log, from)
  {
    var run := Founded(b, log, name, image, userId, joinedAt, pending, origin);
    var insert := InsertCompany(name, userId);
    var afterInsert := log + [insert];
    var created := b.call(log, insert);
    if created.Done? {
      var companyId := created.row.id;
      var afterImage := if image.Some? then ImageSteps(b, afterInsert, companyId, image.value) else afterInsert;
      if image.Some? {
        ImageUpdateOnlyAfterUpload(b, afterInsert, companyId, image.value);
      }
      assert NoInvitation(afterImage, from);
      assert run == Staffed(b, afterImage, companyId, userId, joinedAt, pending, origin);
      StaffedDirectorFirst(b, afterImage, from, companyId, userId, joinedAt, pending, origin);
    } else {
      assert run.log == afterInsert;
      assert NoInvitation(run.log, from);
    }
  }

  /** The founder's Director membership comes before any invitation: every
      invitation insert of a founding is preceded by a successful
      membership insert with role "Director" for the same company. */
  lemma DirectorBeforeInvitations(b: Oracle, log: Log, name: string, image: Option<File>,
                                  joinedAt: string, pending: seq<Invitee>, origin: string)
    ensures DirectorFirst(b, Founding(b, log, name, image, joinedAt, pending, origin).log, |log|)
  {
    var run := Founding(b, log, name, image, joinedAt, pending, origin);
    var session := b.call(log, GetUser);
    if session.Done? {
      FoundedDirectorFirst(b, log + [GetUser], |log|, name, image, session.row.id, joinedAt, pending, origin);
    } else {
      assert NoInvitation(run.log, |log|);
    }
  }

  // ------------------------------------------------------------------ page

  class NewCompanyPage {
    var nombre: string
    var loading: bool
    var companyImage: Option<File>
    var search: string
    var results: seq<Profile>
    var selectedUser: Option<Profile>
    var role: Role
    /** `invitacionesPendientes` */
    var pending: seq<Invitee>
    var errorModal: Option<Modal>
    /** Calls issued to the backend by this page. */
    var log: Log
    /** Where the page navigated, if it did. */
    var route: Option<string>

    /** Staged e-mails are present and pairwise distinct; at most five
        search results. */
    ghost predicate Valid()
      reads this
    {
      && DistinctEmails(pending)
      && (forall k :: 0 <= k < |pending| ==> pending[k].email != "")
      && |results| <= SearchLimit
    }

    constructor ()
      ensures Valid()
      ensures nombre == "" && !loading && companyImage == None && search == "" && results == []
      ensures selectedUser == None && role == Actor && pending == [] && errorModal == None
      ensures log == [] && route == None
    {
      nombre := "";
      loading := false;
      companyImage := None;
      search := "";
      results := [];
      selectedUser := None;
      role := Actor;
      pending := [];
      errorModal := None;
      log := [];
      route := None;
    }

    /** The company name input. */
    method SetNombre(value: string)
      requires Valid()
      modifies this`nombre
      ensures Valid()
      ensures nombre == value
    {
      nombre := value;
    }

    /** The logo input: a picked file replaces the current one. */
    method PickImage(picked: Option<File>)
      requires Valid()
      modifies this`companyImage
      ensures Valid()
      ensures companyImage == if picked.Some? then picked else old(companyImage)
    {
      if picked.Some? {
        companyImage := picked;
      }
    }

    /** `buscarUsuarios(val)`: the text is kept; fewer than three characters
        empty the results without a lookup; otherwise one lookup is issued
        and up to five matches are kept, an error leaving none. */
    method BuscarUsuarios(b: Oracle, val: string)
      requires Valid()
      modifies this`search, this`results, this`log
      ensures Valid()
      ensures search == val
      ensures |val| < MinQueryLength ==> results == [] && log == old(log)
      ensures |val| >= MinQueryLength ==>
        var req := SelectProfiles(SearchPattern(val), SearchLimit);
        && log == old(log) + [req]
        && results == match b.lookup(old(log), req)
                      case Rows(rows) => Limit(rows, SearchLimit)
                      case ListingFailed(_) => []
    {
      search := val;
      if |val| < MinQueryLength {
        results := [];
        return;
      }
      var req := SelectProfiles(SearchPattern(val), SearchLimit);
      var listing := b.lookup(log, req);
      log := log + [req];
      results := if listing.Rows? then Limit(listing.rows, SearchLimit) else [];
    }

    /** Clicking a search result selects that user. */
    method SelectUser(user: Profile)
      requires Valid()
      modifies this`selectedUser
      ensures Valid()
      ensures selectedUser == Some(user)
    {
      selectedUser := Some(user);
    }

    method SetRole(r: Role)
      requires Valid()
      modifies this`role
      ensures Valid()
      ensures role == r
    {
      role := r;
    }

    /** The dialog's close button: the dialog goes away. */
    method CloseErrorModal()
      requires Valid()
      modifies this`errorModal
      ensures Valid()
      ensures errorModal == None
    {
      errorModal := None;
    }

    /** `agregarAListaTemporal`: a refused stage changes nothing; an accepted
        one appends exactly the new entry at the end and clears the
        selection, the search text and the results. */
    method AgregarAListaTemporal()
      requires Valid()
      modifies this`pending, this`selectedUser, this`search, this`results
      ensures Valid()
      ensures var entry := Staged(old(pending), old(selectedUser), role);
        && (entry.None? ==>
              && pending == old(pending) && selectedUser == old(selectedUser)
              && search == old(search) && results == old(results))
        && (entry.Some? ==>
              && pending == old(pending) + [entry.value]
              && selectedUser == None && search == "" && results == [])
    {
      if selectedUser.None? {
        return;
      }
      var user := selectedUser.value;
      if user.email == "" {
        return;
      }
      var yaInvitado := exists k :: 0 <= k < |pending| && pending[k].email == user.email;
      if yaInvitado {
        return;
      }
      var nuevo := Invitee(user.id, user.username, user.email, role, user.avatarUrl);
      StagingKeepsEmailsDistinct(pending, selectedUser, role);
      pending := pending + [nuevo];
      selectedUser := None;
      search := "";
      results := [];
    }

    /** The remove button of the entry at `index`. */
    method QuitarInvitado(index: nat)
      requires Valid()
      modifies this`pending
      ensures Valid()
      ensures pending == RemoveAt(old(pending), index)
    {
      RemovalKeepsEmailsDistinct(pending, index);
      pending := RemoveAt(pending, index);
    }

    /** `fundarYReclutar`, at time `joinedAt` on a page served from `origin`.
        A name shorter than three characters after normalisation shows the
        invalid-name dialog, clears `loading` and calls nothing. Otherwise
        the calls are those of `Founding`; success navigates to the
        dashboard, a failure shows its dialog; either way `loading` stays
        set, so the submit button stays disabled. */
    method FundarYReclutar(b: Oracle, joinedAt: string, origin: string)
      requires Valid()
      modifies this`loading, this`errorModal, this`log, this`route
      ensures Valid()
      ensures !ValidName(NormalizeName(old(nombre))) ==>
        && log == old(log) && !loading
        && errorModal == Some(InvalidNameModal) && route == old(route)
      ensures ValidName(NormalizeName(old(nombre))) ==>
        var run := Founding(b, old(log), NormalizeName(old(nombre)), old(companyImage), joinedAt, old(pending), origin);
        && log == run.log && loading
        && (run.failure.None? ==> route == Some(DashboardRoute) && errorModal == old(errorModal))
        && (run.failure.Some? ==> route == old(route) && errorModal == Some(ModalFor(run.failure.value)))
    {
      Commit(b, NormalizeName(nombre), joinedAt, origin);
    }

    /** The body of `fundarYReclutar` once the name is normalised: the
        length check, then the remote calls and their outcome. */
    method Commit(b: Oracle, name: string, joinedAt: string, origin: string)
      requires Valid()
      modifies this`loading, this`errorModal, this`log, this`route
      ensures Valid()
      ensures !ValidName(name) ==>
        && log == old(log) && !loading
        && errorModal == Some(InvalidNameModal) && route == old(route)
      ensures ValidName(name) ==>
        var run := Founding(b, old(log), name, old(companyImage), joinedAt, old(pending), origin);
        && log == run.log && loading
        && (run.failure.None? ==> route == Some(DashboardRoute) && errorModal == old(errorModal))
        && (run.failure.Some? ==> route == old(route) && errorModal == Some(ModalFor(run.failure.value)))
    {
      var before, image, staged := log, companyImage, pending;
      loading := true;
      if !ValidName(name) {
        errorModal := Some(InvalidNameModal);
        loading := false;
        return;
      }
      var after, failure := FoundCompany(b, before, name, image, joinedAt, staged, origin);
      log := after;
      if failure.None? {
        route := Some(DashboardRoute);
      } else {
        errorModal := Some(ModalFor(failure.value));
      }
    }

    /** The submit button, disabled while `loading`: a click then does
        nothing; otherwise it runs `fundarYReclutar`. */
    method SubmitClick(b: Oracle, joinedAt: string, origin: string)
      requires Valid()
      modifies this`loading, this`errorModal, this`log, this`route
      ensures Valid()
      ensures old(loading) ==>
        loading && errorModal == old(errorModal) && log == old(log) && route == old(route)
      ensures !old(loading) && !ValidName(NormalizeName(old(nombre))) ==>
        && log == old(log) && !loading
        && errorModal == Some(InvalidNameModal) && route == old(route)
      ensures !old(loading) && ValidName(NormalizeName(old(nombre))) ==>
        var run := Founding(b, old(log), NormalizeName(old(nombre)), old(companyImage), joinedAt, old(pending), origin);
        && log == run.log && loading
        && (run.failure.None? ==> route == Some(DashboardRoute) && errorModal == old(errorModal))
        && (run.failure.Some? ==> route == old(route) && errorModal == Some(ModalFor(run.failure.value)))
    {
      if !loading {
        FundarYReclutar(b, joinedAt, origin);
      }
    }
  }

  /** Once a valid name has been submitted the button stays disabled, even
      when the founding failed: a second click issues no call. */
  method SecondSubmitIgnored(b: Oracle, name: string, joinedAt: string, origin: string)
    returns (first: Log, second: Log)
    requires ValidName(NormalizeName(name))
    ensures first == Founding(b, [], NormalizeName(name), None, joinedAt, [], origin).log
    ensures second == first
  {
    var page := FirstSubmit(b, name, joinedAt, origin);
    first := page.log;
    page.SubmitClick(b, joinedAt, origin);
    second := page.log;
  }

  /** A fresh page, the name typed, and one click on the submit button. */
  method FirstSubmit(b: Oracle, name: string, joinedAt: string, origin: string)
    returns (page: NewCompanyPage)
    requires ValidName(NormalizeName(name))
    ensures fresh(page) && page.Valid() && page.loading
    ensures page.log == Founding(b, [], NormalizeName(name), None, joinedAt, [], origin).log
  {
    page := TypedName(name);
    page.SubmitClick(b, joinedAt, origin);
  }

  /** A fresh page with `name` typed into the name field. */
  method TypedName(name: string) returns (page: NewCompanyPage)
    ensures fresh(page) && page.Valid() && page.nombre == name && !page.loading
    ensures page.companyImage == None && page.pending == [] && page.log == []
  {
    page := new NewCompanyPage();
    page.SetNombre(name);
  }

  /** The `try` block of `fundarYReclutar`: the calls issued and the error
      thrown, if any, are those of `Founding`. */
  method FoundCompany(b: Oracle, log: Log, name: string, image: Option<File>,
                      joinedAt: string, pending: seq<Invitee>, origin: string)
    returns (after: Log, failure: Option<Failure>)
    ensures after == Founding(b, log, name, image, joinedAt, pending, origin).log
    ensures failure == Founding(b, log, name, image, joinedAt, pending, origin).failure
  {
    after := log + [GetUser];
    var session := b.call(log, GetUser);
    if session.Failed? {
      return after, Some(Raw(NoSessionMessage));
    }
    var userId := session.row.id;
    ghost var spec := Founded(b, after, name, image, userId, joinedAt, pending, origin);
    assert spec == Founding(b, log, name, image, joinedAt, pending, origin);
    var insert := InsertCompany(name, userId);
    var created := b.call(after, insert);
    after := after + [insert];
    if image.Some? && created.Failed? {
      return after, Some(Raw(NullIdMessage));
    }
    if image.Some? {
      ghost var afterInsert := after;
      var imageUrl: Option<string>;
      after, imageUrl := UploadCompanyImage(b, after, image.value, created.row.id);
      if imageUrl.Some? && imageUrl.value != "" {
        after := after + [UpdateCompanyImage(created.row.id, imageUrl.value)];
      }
      assert after == ImageSteps(b, afterInsert, created.row.id, image.value);
    }
    if created.Failed? {
      return after, Some(Encoded(created.error));
    }
    assert spec == Staffed(b, after, created.row.id, userId, joinedAt, pending, origin);
    var member := DirectorMembership(created.row.id, userId, joinedAt);
    var joined := b.call(after, member);
    after := after + [member];
    if joined.Failed? {
      return after, Some(Raw(joined.error.message));
    }
    var links: seq<string>;
    after, failure, links := SendInvitations(b, after, created.row.id, userId, pending, origin);
  }

  /** `uploadCompanyImage` as a method over the call log. */
  method UploadCompanyImage(b: Oracle, log: Log, file: File, companyId: string)
    returns (after: Log, url: Option<string>)
    ensures ImageRun(after, url) == ImageUpload(b, log, companyId, file)
  {
    var filePath := LogoPath(companyId, file.name);
    var upload := Upload(ImageBucket, filePath, file, Some(file.mimeType), true);
    var reply := b.call(log, upload);
    after := log + [upload];
    if reply.Failed? {
      return after, None;
    }
    url := Some(b.publicUrl(ImageBucket, filePath));
  }
}
