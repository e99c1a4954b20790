// A registered client: its secret, its metadata and the management flags, through
// creation, edits, secret rotations and disabling.
module ClientRecord {
  import opened Common
  import opened ClientMetadata

  // token_urlsafe(64): some non-empty text.
  type Secret = s: string | s != "" witness "s"

  // Whole seconds since the epoch; the system clock is past its origin.
  type Stamp = int

  datatype Record = Record(
    secret: string,
    details: Metadata,
    disabledAt: Option<Stamp>,
    rotatedAt: Option<Stamp>,
    updatedAt: Option<Stamp>)

  datatype Outcome = Saved(record: Record, generated: Option<Secret>) | Rejected(messages: seq<string>)

  // bool(metadata.get(key)): an absent or zero stamp does not count.
  predicate Truthy(v: Option<Stamp>) {
    v.Some? && v.value != 0
  }

  predicate IsDisabled(r: Record) {
    Truthy(r.disabledAt)
  }

  // now or int(time.time())
  function At(now: Option<Stamp>, clock: Stamp): Stamp {
    if Truthy(now) then now.value else clock
  }

  function CreateClient(f: Form, isUrl: string -> bool, newSecret: Secret): Result<Record, seq<string>> {
    match Build(f, isUrl)
    case Err(e) => Err(e)
    case Ok(m) => Ok(Record(if f.authMethod != Some(METHOD_NONE) then newSecret else "", m, None, None, None))
  }

  // update_client_metadata once the form has been checked.
  function Replace(r: Record, built: Result<Metadata, seq<string>>, now: Stamp): Result<Record, seq<string>> {
    match built
    case Err(e) => Err(e)
    case Ok(m) =>
      Ok(Record(r.secret, m,
                if Truthy(r.disabledAt) then r.disabledAt else None,
                if Truthy(r.rotatedAt) then r.rotatedAt else None,
                Some(now)))
  }

  function Update(
    r: Record, f: Form, isUrl: string -> bool, now: Option<Stamp>, clock: Stamp): Result<Record, seq<string>> {
    Replace(r, Build(f, isUrl), At(now, clock))
  }

  const NO_SECRET := "Public clients do not have a secret to rotate."

  function RotateSecret(r: Record, newSecret: Secret, now: Option<Stamp>, clock: Stamp): Result<Record, seq<string>> {
    if r.details.authMethod == METHOD_NONE then Err([NO_SECRET])
    else Ok(r.(secret := newSecret, rotatedAt := Some(At(now, clock)), updatedAt := Some(At(now, clock))))
  }

  function SetDisabled(r: Record, disabled: bool, now: Option<Stamp>, clock: Stamp): Record {
    r.(disabledAt := if disabled then Some(At(now, clock)) else None, updatedAt := Some(At(now, clock)))
  }

  // The save button of the edit dialog; the clock may advance between its two readings.
  function SaveBuilt(
    r: Record, built: Result<Metadata, seq<string>>, clock: Stamp, later: Stamp, newSecret: Secret): Outcome {
    match Replace(r, built, clock)
    case Err(e) => Rejected(e)
    case Ok(u) =>
      if u.details.authMethod == METHOD_NONE then Saved(u.(secret := ""), None)
      else if u.secret != "" then Saved(u, None)
      else
        match RotateSecret(u, newSecret, None, later)
        case Err(e) => Rejected(e)
        case Ok(v) => Saved(v, Some(newSecret))
  }

  function Save(r: Record, f: Form, isUrl: string -> bool, clock: Stamp, later: Stamp, newSecret: Secret): Outcome {
    SaveBuilt(r, Build(f, isUrl), clock, later, newSecret)
  }

  function Toggle(r: Record, clock: Stamp): Record {
    SetDisabled(r, !IsDisabled(r), None, clock)
  }

  // The client lookup the authorization server uses.
  function QueryClient(found: Option<Record>): Option<Record> {
    if found.Some? && IsDisabled(found.value) then None else found
  }

  // The form asks for a client without a secret.
  predicate IsPublic(f: Form) {
    f.authMethod == Some("none")
  }

  lemma {:induction false} PublicWhenAsked(f: Form, isUrl: string -> bool)
    requires Build(f, isUrl).Ok?
    ensures Build(f, isUrl).value.authMethod == METHOD_NONE <==> IsPublic(f)
  {
    assert Build(f, isUrl).value == Normalize(f);
  }

  // ---------------------------------------------------------------- the row, changed in place

  class OAuth2Client {
    var secret: string
    var details: Metadata
    var disabledAt: Option<Stamp>
    var rotatedAt: Option<Stamp>
    var updatedAt: Option<Stamp>

    ghost function Value(): Record
      reads this
    {
      Record(secret, details, disabledAt, rotatedAt, updatedAt)
    }

    constructor (secret: string, details: Metadata)
      ensures Value() == Record(secret, details, None, None, None)
    {
      this.secret := secret;
      this.details := details;
      disabledAt, rotatedAt, updatedAt := None, None, None;
    }

    static method Submit(f: Form, isUrl: string -> bool, newSecret: Secret) returns (client: Option<OAuth2Client>)
      ensures client.Some? <==> CreateClient(f, isUrl, newSecret).Ok?
      ensures client.Some? ==> fresh(client.value) && client.value.Value() == CreateClient(f, isUrl, newSecret).value
      ensures client.Some? ==>
                && client.value.secret == (if IsPublic(f) then "" else newSecret)
                && Build(f, isUrl) == Ok(client.value.details)
                && client.value.disabledAt == client.value.rotatedAt == client.value.updatedAt == None
    {
      var built := BuildClientMetadata(f, isUrl);
      if built.Err? {
        return None;
      }
      var row := new OAuth2Client(if f.authMethod != Some(METHOD_NONE) then newSecret else "", built.value);
      return Some(row);
    }

    // The writes that follow a successful check of the form.
    method ReplaceDetails(m: Metadata, now: Stamp)
      modifies this
      ensures Replace(old(Value()), Ok(m), now) == Ok(Value())
    {
      if !Truthy(disabledAt) { disabledAt := None; }
      if !Truthy(rotatedAt) { rotatedAt := None; }
      details := m;
      updatedAt := Some(now);
    }

    method UpdateClientMetadata(f: Form, isUrl: string -> bool, now: Option<Stamp>, clock: Stamp)
      returns (r: Result<(), seq<string>>)
      modifies this
      ensures match Update(old(Value()), f, isUrl, now, clock)
              case Ok(updated) => r == Ok(()) && Value() == updated
              case Err(messages) => r == Err(messages) && Value() == old(Value())
      ensures secret == old(secret)
      ensures r.Ok? ==>
                && Build(f, isUrl) == Ok(details)
                && updatedAt == Some(if now.Some? && now.value != 0 then now.value else clock)
                && (old(disabledAt) != Some(0) ==> disabledAt == old(disabledAt))
                && (old(rotatedAt) != Some(0) ==> rotatedAt == old(rotatedAt))
    {
      var built := BuildClientMetadata(f, isUrl);
      if built.Err? {
        return Err(built.error);
      }
      ReplaceDetails(built.value, At(now, clock));
      return Ok(());
    }

    method RotateClientSecret(newSecret: Secret, now: Option<Stamp>, clock: Stamp)
      returns (r: Result<Secret, seq<string>>)
      modifies this
      ensures r.Ok? <==> RotateSecret(old(Value()), newSecret, now, clock).Ok?
      ensures r.Ok? ==> Value() == RotateSecret(old(Value()), newSecret, now, clock).value && r.value == newSecret
      ensures r.Err? ==> Value() == old(Value()) && r.error == [NO_SECRET]
      ensures r.Ok? <==> old(details).authMethod != METHOD_NONE
      ensures r.Ok? ==>
                && secret == newSecret == r.value
                && rotatedAt == updatedAt == Some(if now.Some? && now.value != 0 then now.value else clock)
                && details == old(details) && disabledAt == old(disabledAt)
    {
      if details.authMethod == METHOD_NONE {
        return Err([NO_SECRET]);
      }
      secret := newSecret;
      rotatedAt := Some(At(now, clock));
      updatedAt := Some(At(now, clock));
      return Ok(newSecret);
    }

    method SetClientDisabled(disabled: bool, now: Option<Stamp>, clock: Stamp)
      modifies this
      ensures Value() == SetDisabled(old(Value()), disabled, now, clock)
      ensures updatedAt == Some(if now.Some? && now.value != 0 then now.value else clock)
      ensures disabledAt == if disabled then updatedAt else None
      ensures secret == old(secret) && details == old(details) && rotatedAt == old(rotatedAt)
    {
      if disabled {
        disabledAt := Some(At(now, clock));
      } else {
        disabledAt := None;
      }
      updatedAt := Some(At(now, clock));
    }

    method ToggleClient(clock: Stamp)
      modifies this
      ensures Value() == Toggle(old(Value()), clock)
      ensures updatedAt == Some(clock)
      ensures disabledAt == if old(disabledAt).None? || old(disabledAt) == Some(0) then Some(clock) else None
      ensures secret == old(secret) && details == old(details) && rotatedAt == old(rotatedAt)
    {
      SetClientDisabled(!Truthy(disabledAt), None, clock);
    }

    method SaveDialog(f: Form, isUrl: string -> bool, clock: Stamp, later: Stamp, newSecret: Secret)
      returns (shown: Option<Secret>)
      modifies this
      ensures match Save(old(Value()), f, isUrl, clock, later, newSecret)
              case Saved(record, generated) => Value() == record && shown == generated
              case Rejected(_) => Value() == old(Value()) && shown == None
      ensures Build(f, isUrl).Err? ==> Value() == old(Value()) && shown == None
      ensures Build(f, isUrl).Ok? ==>
                && Build(f, isUrl) == Ok(details)
                && secret == (if IsPublic(f) then "" else if old(secret) == "" then newSecret else old(secret))
                && shown == (if !IsPublic(f) && old(secret) == "" then Some(newSecret) else None)
    {
      if Build(f, isUrl).Ok? { PublicWhenAsked(f, isUrl); }
      shown := None;
      var updated := UpdateClientMetadata(f, isUrl, None, clock);
      if updated.Err? {
        return;
      }
      if details.authMethod == METHOD_NONE {
        secret := "";
      } else if secret == "" {
        var rotated := RotateClientSecret(newSecret, None, later);
        shown := Some(rotated.value);
      }
    }
  }

  // ---------------------------------------------------------------- every run of the dialogs

  datatype Op =
    | EditOp(form: Form, pause: nat, newSecret: Secret)
    | RotateOp(newSecret: Secret)
    | ToggleOp
    | WaitOp(seconds: nat)

  datatype State = State(record: Record, clock: Stamp)

  function Edited(s: State, built: Result<Metadata, seq<string>>, pause: nat, newSecret: Secret): State {
    match SaveBuilt(s.record, built, s.clock, s.clock + pause, newSecret)
    case Saved(r, _) => State(r, s.clock + pause)
    case Rejected(_) => State(s.record, s.clock + pause)
  }

  // One operation, given the outcome of the check if it submits a form.
  function Applied(s: State, op: Op, built: Result<Metadata, seq<string>>): State {
    match op
    case EditOp(_, pause, newSecret) => Edited(s, built, pause, newSecret)
    case RotateOp(newSecret) =>
      (match RotateSecret(s.record, newSecret, None, s.clock)
       case Ok(r) => State(r, s.clock)
       case Err(_) => s)
    case ToggleOp => State(Toggle(s.record, s.clock), s.clock)
    case WaitOp(seconds) => State(s.record, s.clock + seconds)
  }

  function Checked(op: Op, isUrl: string -> bool): Result<Metadata, seq<string>> {
    if op.EditOp? then Build(op.form, isUrl) else Err([])
  }

  function Next(s: State, op: Op, isUrl: string -> bool): State {
    Applied(s, op, Checked(op, isUrl))
  }

  function Run(s: State, ops: seq<Op>, isUrl: string -> bool): State {
    if |ops| == 0 then s else Next(Run(s, ops[..|ops| - 1], isUrl), ops[|ops| - 1], isUrl)
  }

  function Toggles(ops: seq<Op>): nat {
    if |ops| == 0 then 0
    else Toggles(ops[..|ops| - 1]) + if ops[|ops| - 1].ToggleOp? then 1 else 0
  }

  // The last accepted form among the one the client was created with and the edits.
  function LastAccepted(first: Form, ops: seq<Op>, accepts: Form -> bool): Form {
    if |ops| == 0 then first
    else
      var last := ops[|ops| - 1];
      if Accepted(last, accepts) then last.form else LastAccepted(first, ops[..|ops| - 1], accepts)
  }

  // Which forms pass the check.
  function Accepts(isUrl: string -> bool): Form -> bool {
    f => Build(f, isUrl).Ok?
  }

  predicate Accepted(op: Op, accepts: Form -> bool) {
    op.EditOp? && accepts(op.form)
  }

  ghost predicate Bounded(s: State) {
    && s.clock > 0
    && (s.record.updatedAt.Some? ==> 0 < s.record.updatedAt.value <= s.clock)
    && (s.record.disabledAt.Some? ==>
          s.record.updatedAt.Some? && 0 < s.record.disabledAt.value <= s.record.updatedAt.value)
    && (s.record.rotatedAt.Some? ==>
          s.record.updatedAt.Some? && 0 < s.record.rotatedAt.value <= s.record.updatedAt.value)
  }

  ghost predicate SecretFits(r: Record) {
    r.secret == "" <==> r.details.authMethod == METHOD_NONE
  }

  ghost predicate Sound(s: State) {
    Bounded(s) && SecretFits(s.record)
  }

  lemma {:induction false} EditKeeps(s: State, built: Result<Metadata, seq<string>>, pause: nat, newSecret: Secret)
    requires Sound(s)
    ensures var t := Edited(s, built, pause, newSecret);
            && Sound(t) && (IsDisabled(t.record) <==> IsDisabled(s.record))
            && t.record.details == (if built.Ok? then built.value else s.record.details)
            && (built.Err? ==> t.record == s.record)
  {
  }

  lemma {:induction false} AppliedKeeps(s: State, op: Op, built: Result<Metadata, seq<string>>)
    requires Sound(s)
    ensures var t := Applied(s, op, built);
            && Sound(t)
            && (IsDisabled(t.record) <==> (IsDisabled(s.record) != op.ToggleOp?))
            && (!op.EditOp? ==> t.record.details == s.record.details)
  {
    if op.EditOp? { EditKeeps(s, built, op.pause, op.newSecret); }
  }

  lemma {:induction false} StepKeeps(s: State, op: Op, isUrl: string -> bool)
    requires Sound(s)
    ensures var t := Next(s, op, isUrl);
            && Sound(t)
            && (IsDisabled(t.record) <==> (IsDisabled(s.record) != op.ToggleOp?))
            && (!op.EditOp? ==> t.record.details == s.record.details)
  {
    AppliedKeeps(s, op, Checked(op, isUrl));
  }

  lemma {:induction false} RunKeeps(s: State, ops: seq<Op>, isUrl: string -> bool)
    requires Sound(s)
    ensures Sound(Run(s, ops, isUrl))
    decreases |ops|
  {
    if |ops| == 0 {
    } else {
      var n := |ops| - 1;
      RunKeeps(s, ops[..n], isUrl);
      StepKeeps(Run(s, ops[..n], isUrl), ops[n], isUrl);
    }
  }

  lemma {:induction false} TogglesSnoc(ops: seq<Op>, n: nat)
    requires |ops| == n + 1
    ensures Toggles(ops) % 2 == 1 <==> ((Toggles(ops[..n]) % 2 == 1) != ops[n].ToggleOp?)
  {
  }

  lemma {:induction false} StepFlips(s: State, ops: seq<Op>, n: nat, isUrl: string -> bool)
    requires |ops| == n + 1 && Sound(Run(s, ops[..n], isUrl))
    ensures IsDisabled(Run(s, ops, isUrl).record) <==> (IsDisabled(Run(s, ops[..n], isUrl).record) != ops[n].ToggleOp?)
  {
    StepKeeps(Run(s, ops[..n], isUrl), ops[n], isUrl);
  }

  lemma {:induction false} DisabledByToggles(s: State, ops: seq<Op>, isUrl: string -> bool)
    requires Sound(s)
    ensures IsDisabled(Run(s, ops, isUrl).record) <==> (IsDisabled(s.record) != (Toggles(ops) % 2 == 1))
    decreases |ops|
  {
    if |ops| == 0 {
    } else {
      var n := |ops| - 1;
      DisabledByToggles(s, ops[..n], isUrl);
      RunKeeps(s, ops[..n], isUrl);
      StepFlips(s, ops, n, isUrl);
      TogglesSnoc(ops, n);
    }
  }

  lemma {:induction false} LastAcceptedNext(first: Form, ops: seq<Op>, accepts: Form -> bool)
    requires |ops| > 0
    ensures LastAccepted(first, ops, accepts) ==
            if Accepted(ops[|ops| - 1], accepts) then ops[|ops| - 1].form
            else LastAccepted(first, ops[..|ops| - 1], accepts)
  {
  }

  lemma {:induction false} StepDetails(s: State, op: Op, isUrl: string -> bool)
    requires Sound(s)
    ensures var built := Checked(op, isUrl);
            Next(s, op, isUrl).record.details == if op.EditOp? && built.Ok? then built.value else s.record.details
  {
    if op.EditOp? {
      EditKeeps(s, Checked(op, isUrl), op.pause, op.newSecret);
    } else {
      AppliedKeeps(s, op, Checked(op, isUrl));
    }
  }

  lemma {:induction false} DetailsAreLastAccepted(s: State, first: Form, ops: seq<Op>, isUrl: string -> bool)
    requires Sound(s) && Build(first, isUrl) == Ok(s.record.details)
    ensures Build(LastAccepted(first, ops, Accepts(isUrl)), isUrl) == Ok(Run(s, ops, isUrl).record.details)
    decreases |ops|
  {
    if |ops| == 0 {
    } else {
      var n := |ops| - 1;
      var mid, accepted := Run(s, ops[..n], isUrl), LastAccepted(first, ops[..n], Accepts(isUrl));
      assert Build(accepted, isUrl) == Ok(mid.record.details) by {
        DetailsAreLastAccepted(s, first, ops[..n], isUrl);
      }
      assert Sound(mid) by { RunKeeps(s, ops[..n], isUrl); }
      StepDetails(mid, ops[n], isUrl);
      LastAcceptedNext(first, ops, Accepts(isUrl));
    }
  }

  lemma {:induction false} CreatedIsSound(first: Form, isUrl: string -> bool, newSecret: Secret, clock: Stamp)
    requires CreateClient(first, isUrl, newSecret).Ok? && clock > 0
    ensures var s := State(CreateClient(first, isUrl, newSecret).value, clock);
            Sound(s) && !IsDisabled(s.record) && Build(first, isUrl) == Ok(s.record.details)
  {
    assert Build(first, isUrl).value == Normalize(first);
  }

  // What every record obeys after these operations ...
  ghost predicate RecordLaw(s: State, ops: seq<Op>) {
    && SecretFits(s.record)
    && Bounded(s)
    && (IsDisabled(s.record) <==> Toggles(ops) % 2 == 1)
    && (QueryClient(Some(s.record)) == Some(s.record) <==> Toggles(ops) % 2 == 0)
  }

  lemma {:induction false} RunObeysLaw(s: State, ops: seq<Op>, isUrl: string -> bool)
    requires Sound(s) && !IsDisabled(s.record)
    ensures RecordLaw(Run(s, ops, isUrl), ops)
  {
    RunKeeps(s, ops, isUrl);
    DisabledByToggles(s, ops, isUrl);
  }

  // ... and that its metadata is what this form, the last accepted one, stands for.
  ghost predicate ClientLaw(s: State, accepted: Form, ops: seq<Op>, isUrl: string -> bool) {
    RecordLaw(s, ops) && Build(accepted, isUrl) == Ok(s.record.details)
  }

  // ---------------------------------------------------------------- the record, told from its history

  function ClockAfter(clock: Stamp, ops: seq<Op>): Stamp {
    if |ops| == 0 then clock
    else
      var last := ops[|ops| - 1];
      ClockAfter(clock, ops[..|ops| - 1]) +
      if last.WaitOp? then last.seconds else if last.EditOp? then last.pause else 0
  }

  // The operation shows a new secret to its user: a rotation of a confidential client, or an
  // accepted edit that makes a public client confidential.
  predicate HandsOut(op: Op, wasPublic: bool, accepted: bool) {
    (op.RotateOp? && !wasPublic) || (op.EditOp? && accepted && wasPublic && !IsPublic(op.form))
  }

  // The moment of the secret an operation hands out: an edit does it after its pause.
  function HandedOutAt(op: Op, clock: Stamp): Stamp {
    if op.EditOp? then clock + op.pause else clock
  }

  // The secret last handed out, the one of the creation included.
  function LastSecret(first: Form, created: Secret, ops: seq<Op>, accepts: Form -> bool): Secret {
    if |ops| == 0 then created
    else
      var past, last := ops[..|ops| - 1], ops[|ops| - 1];
      if HandsOut(last, IsPublic(LastAccepted(first, past, accepts)), Accepted(last, accepts)) then last.newSecret
      else LastSecret(first, created, past, accepts)
  }

  // When a secret was last handed out after the creation.
  function LastRotation(first: Form, clock: Stamp, ops: seq<Op>, accepts: Form -> bool): Option<Stamp> {
    if |ops| == 0 then None
    else
      var past, last := ops[..|ops| - 1], ops[|ops| - 1];
      if HandsOut(last, IsPublic(LastAccepted(first, past, accepts)), Accepted(last, accepts)) then
        Some(HandedOutAt(last, ClockAfter(clock, past)))
      else LastRotation(first, clock, past, accepts)
  }

  // When the client was disabled, if it is.
  function DisabledSince(clock: Stamp, ops: seq<Op>): Option<Stamp> {
    if |ops| == 0 then None
    else
      var past := ops[..|ops| - 1];
      if ops[|ops| - 1].ToggleOp? then
        if DisabledSince(clock, past).None? then Some(ClockAfter(clock, past)) else None
      else DisabledSince(clock, past)
  }

  // When the client was last changed after the creation.
  function LastChange(first: Form, clock: Stamp, ops: seq<Op>, accepts: Form -> bool): Option<Stamp> {
    if |ops| == 0 then None
    else
      var past, last := ops[..|ops| - 1], ops[|ops| - 1];
      if HandsOut(last, IsPublic(LastAccepted(first, past, accepts)), Accepted(last, accepts)) then
        Some(HandedOutAt(last, ClockAfter(clock, past)))
      else if last.ToggleOp? || Accepted(last, accepts) then Some(ClockAfter(clock, past))
      else LastChange(first, clock, past, accepts)
  }

  // The whole record but its metadata.
  ghost predicate Remembers(
    s: State, first: Form, created: Secret, clock: Stamp, ops: seq<Op>, accepts: Form -> bool) {
    && s.clock == ClockAfter(clock, ops)
    && s.record.secret ==
       (if IsPublic(LastAccepted(first, ops, accepts)) then "" else LastSecret(first, created, ops, accepts))
    && s.record.rotatedAt == LastRotation(first, clock, ops, accepts)
    && s.record.disabledAt == DisabledSince(clock, ops)
    && s.record.updatedAt == LastChange(first, clock, ops, accepts)
  }

  // What an edit writes.
  lemma {:induction false} EditWrites(s: State, built: Result<Metadata, seq<string>>, pause: nat, newSecret: Secret)
    requires Sound(s)
    ensures var t, wasPublic := Edited(s, built, pause, newSecret), s.record.details.authMethod == METHOD_NONE;
            var nowPublic := built.Ok? && built.value.authMethod == METHOD_NONE;
            var out := built.Ok? && wasPublic && !nowPublic;
            && t.clock == s.clock + pause
            && t.record.secret == (if nowPublic then "" else if out then newSecret else s.record.secret)
            && t.record.rotatedAt == (if out then Some(s.clock + pause) else s.record.rotatedAt)
            && t.record.disabledAt == s.record.disabledAt
            && t.record.updatedAt ==
               (if out then Some(s.clock + pause) else if built.Ok? then Some(s.clock) else s.record.updatedAt)
  {
  }

  // What each operation writes.
  ghost predicate Writes(s: State, op: Op, wasPublic: bool, accepted: bool, t: State) {
    var out := HandsOut(op, wasPublic, accepted);
    var nowPublic := if op.EditOp? && accepted then IsPublic(op.form) else wasPublic;
    && t.clock == ClockAfter(s.clock, [op])
    && t.record.secret == (if nowPublic then "" else if out then op.newSecret else s.record.secret)
    && t.record.rotatedAt == (if out then Some(HandedOutAt(op, s.clock)) else s.record.rotatedAt)
    && t.record.disabledAt ==
       (if !op.ToggleOp? then s.record.disabledAt
        else if s.record.disabledAt.None? then Some(s.clock) else None)
    && t.record.updatedAt ==
       (if out then Some(HandedOutAt(op, s.clock))
        else if op.ToggleOp? || (op.EditOp? && accepted) then Some(s.clock) else s.record.updatedAt)
  }

  lemma {:induction false} StepWrites(s: State, op: Op, built: Result<Metadata, seq<string>>, wasPublic: bool)
    requires Sound(s) && (wasPublic <==> s.record.details.authMethod == METHOD_NONE)
    requires op.EditOp? && built.Ok? ==> (built.value.authMethod == METHOD_NONE <==> IsPublic(op.form))
    ensures Writes(s, op, wasPublic, built.Ok?, Applied(s, op, built))
  {
    assert [op][..0] == [];
    if op.EditOp? { EditWrites(s, built, op.pause, op.newSecret); }
  }

  // How the history functions go on.
  lemma {:induction false} HistoryGoesOn(
    mid: State, t: State, first: Form, created: Secret, clock: Stamp, ops: seq<Op>, accepts: Form -> bool)
    requires |ops| > 0
    requires var past, last := ops[..|ops| - 1], ops[|ops| - 1];
             && Remembers(mid, first, created, clock, past, accepts)
             && Writes(mid, last, IsPublic(LastAccepted(first, past, accepts)), Accepted(last, accepts), t)
    ensures Remembers(t, first, created, clock, ops, accepts)
  {
    var past, last := ops[..|ops| - 1], ops[|ops| - 1];
    assert [last][..0] == [];
    assert ClockAfter(mid.clock, [last]) == ClockAfter(clock, ops);
  }

  lemma {:induction false} LastWrites(s: State, first: Form, ops: seq<Op>, isUrl: string -> bool)
    requires Sound(s) && Build(first, isUrl) == Ok(s.record.details) && |ops| > 0
    ensures var past, last := ops[..|ops| - 1], ops[|ops| - 1];
            Writes(Run(s, past, isUrl), last, IsPublic(LastAccepted(first, past, Accepts(isUrl))),
                   Accepted(last, Accepts(isUrl)), Run(s, ops, isUrl))
  {
    var past, last := ops[..|ops| - 1], ops[|ops| - 1];
    RunKeeps(s, past, isUrl);
    DetailsAreLastAccepted(s, first, past, isUrl);
    PublicWhenAsked(LastAccepted(first, past, Accepts(isUrl)), isUrl);
    if Accepted(last, Accepts(isUrl)) { PublicWhenAsked(last.form, isUrl); }
    StepWrites(Run(s, past, isUrl), last, Checked(last, isUrl), IsPublic(LastAccepted(first, past, Accepts(isUrl))));
  }

  lemma {:induction false} RunRemembers(
    s: State, first: Form, created: Secret, ops: seq<Op>, isUrl: string -> bool)
    requires Sound(s) && Build(first, isUrl) == Ok(s.record.details)
    requires Remembers(s, first, created, s.clock, [], Accepts(isUrl))
    ensures Remembers(Run(s, ops, isUrl), first, created, s.clock, ops, Accepts(isUrl))
    decreases |ops|
  {
    if |ops| == 0 {
    } else {
      var past := ops[..|ops| - 1];
      RunRemembers(s, first, created, past, isUrl);
      LastWrites(s, first, ops, isUrl);
      HistoryGoesOn(Run(s, past, isUrl), Run(s, ops, isUrl), first, created, s.clock, ops, Accepts(isUrl));
    }
  }

  // In every run from a created client, for every mix of accepted and rejected edits, rotations
  // and toggles: the secret is empty exactly for public clients, the last update bounds the other
  // stamps, the metadata is that of the last accepted form, and the client is looked up
  // successfully exactly after an even number of toggles. The stored secret is the one last handed
  // out, and each stamp is the moment of the last operation that sets it.
  lemma {:induction false} ClientRecordInvariant(
    first: Form, isUrl: string -> bool, newSecret: Secret, clock: Stamp, ops: seq<Op>)
    requires CreateClient(first, isUrl, newSecret).Ok? && clock > 0
    ensures ClientLaw(Run(State(CreateClient(first, isUrl, newSecret).value, clock), ops, isUrl),
                      LastAccepted(first, ops, Accepts(isUrl)), ops, isUrl)
    ensures Remembers(Run(State(CreateClient(first, isUrl, newSecret).value, clock), ops, isUrl),
                      first, newSecret, clock, ops, Accepts(isUrl))
  {
    CreatedIsSound(first, isUrl, newSecret, clock);
    RunRemembers(State(CreateClient(first, isUrl, newSecret).value, clock), first, newSecret, ops, isUrl);
    RunObeysLaw(State(CreateClient(first, isUrl, newSecret).value, clock), ops, isUrl);
    DetailsAreLastAccepted(State(CreateClient(first, isUrl, newSecret).value, clock), first, ops, isUrl);
  }

  // The flag is a stamp, and a zero stamp reads as enabled: the toggles decide the flag in all
  // runs exactly when the clock starts after the epoch.
  lemma {:induction false} TogglesNeedAClock(r: Record, isUrl: string -> bool, clock: Stamp)
    requires SecretFits(r) && r.disabledAt == None && r.rotatedAt == None && r.updatedAt == None
    ensures (forall ops :: FlagIsParity(State(r, clock), ops, isUrl)) <==> clock > 0
  {
    if clock > 0 {
      forall ops ensures FlagIsParity(State(r, clock), ops, isUrl) {
        DisabledByToggles(State(r, clock), ops, isUrl);
      }
    } else {
      var ops := [WaitOp(-clock), ToggleOp];
      assert ops[..1] == [WaitOp(-clock)] && ops[..1][..0] == [];
      assert Run(State(r, clock), ops[..1], isUrl) == State(r, 0);
      assert Toggles(ops[..1]) == 0;
      assert !FlagIsParity(State(r, clock), ops, isUrl);
    }
  }

  ghost predicate FlagIsParity(s: State, ops: seq<Op>, isUrl: string -> bool) {
    IsDisabled(Run(s, ops, isUrl).record) <==> Toggles(ops) % 2 == 1
  }

  // Saving a dialog that still shows the stored metadata changes nothing but the time of the update.
  lemma {:induction false} UntouchedDialog(s: State, isUrl: string -> bool, first: Form, pause: nat, newSecret: Secret)
    requires Build(first, isUrl) == Ok(s.record.details) && Sound(s)
    ensures Next(s, EditOp(Render(s.record.details), pause, newSecret), isUrl).record ==
            s.record.(updatedAt := Some(s.clock))
  {
    EditRoundTrip(first, isUrl);
    SavingTheSame(s, pause, newSecret);
  }

  lemma {:induction false} SavingTheSame(s: State, pause: nat, newSecret: Secret)
    requires Sound(s)
    ensures Edited(s, Ok(s.record.details), pause, newSecret).record == s.record.(updatedAt := Some(s.clock))
  {
  }

  // Edits change a client's secret only across the boundary between public and confidential.
  lemma {:induction false} SecretChangesOnlyAtTheBoundary(
    s: State, f: Form, isUrl: string -> bool, pause: nat, newSecret: Secret)
    requires Sound(s) && Build(f, isUrl).Ok?
    ensures var before, after := s.record, Next(s, EditOp(f, pause, newSecret), isUrl).record;
            && ((before.details.authMethod == METHOD_NONE <==> after.details.authMethod == METHOD_NONE) ==>
                  after.secret == before.secret)
            && (before.details.authMethod == METHOD_NONE && after.details.authMethod != METHOD_NONE ==>
                  after.secret == newSecret)
            && (after.details.authMethod == METHOD_NONE ==> after.secret == "")
  {
    BoundaryOfEdited(s, Build(f, isUrl), pause, newSecret);
  }

  lemma {:induction false} BoundaryOfEdited(
    s: State, built: Result<Metadata, seq<string>>, pause: nat, newSecret: Secret)
    requires Sound(s) && built.Ok?
    ensures var before, after := s.record, Edited(s, built, pause, newSecret).record;
            && ((before.details.authMethod == METHOD_NONE <==> after.details.authMethod == METHOD_NONE) ==>
                  after.secret == before.secret)
            && (before.details.authMethod == METHOD_NONE && after.details.authMethod != METHOD_NONE ==>
                  after.secret == newSecret)
            && (after.details.authMethod == METHOD_NONE ==> after.secret == "")
  {
  }
}
