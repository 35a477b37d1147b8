/**
 * The management RPCs (internal/api/grpc_server.go) on values: their effect on the registry, the stored configs and the
 * audit log, and the audit log read back as a journal of the registry.
 */
module Journal {
  import opened Common
  import opened Workers
  import opened Orchestrator

  datatype AuditAction = AuditCreate | AuditPause | AuditResume | AuditDelete

  datatype AuditEntry = AuditEntry(botID: BotId, action: AuditAction)

  datatype Status = OK | InvalidArgument | Internal | AlreadyExists | NotFoundStatus

  datatype Request =
    | CreateBot(botID: BotId, tradingPair: string, cfg: BotConfig)
    | PauseBot(botID: BotId)
    | ResumeBot(botID: BotId)
    | DeleteBot(botID: BotId)

  /** The request names its bot in its config. */
  type Rpc = r: Request | r.CreateBot? ==> r.cfg.botID == r.botID witness PauseBot([])

  /** What the world does to one request: whether the config upsert and the audit insert succeed, and whether the
      adapter factory does. */
  datatype Env = Env(persistFails: bool, factoryFails: bool, auditFails: bool)

  /** The registered bots, the config each was started with, the stored configs, and the audit log. */
  datatype State = State(bots: map<BotId, WorkerState>, running: map<BotId, BotConfig>,
                         configs: map<BotId, BotConfig>, audit: seq<AuditEntry>)

  const EMPTY := State(map[], map[], map[], [])

  function Logged(s: State, env: Env, entry: AuditEntry): State {
    if env.auditFails then s else s.(audit := s.audit + [entry])
  }

  function Handle(s: State, req: Rpc, env: Env): (State, Status) {
    match req
    case CreateBot(id, pair, cfg) =>
      if id == [] || pair == "" then (s, InvalidArgument)
      else if env.persistFails then (s, Internal)
      else
        var s1 := if id in s.configs then s else s.(configs := s.configs[id := cfg]);
        if id in s.bots || env.factoryFails then (s1, AlreadyExists)
        else
          var s2 := s1.(bots := s1.bots[id := Normal], running := s1.running[id := cfg]);
          (Logged(s2, env, AuditEntry(id, AuditCreate)), OK)
    case PauseBot(id) =>
      if id !in s.bots || !ValidEdge(s.bots[id], Pause) then (s, NotFoundStatus)
      else (Logged(s.(bots := s.bots[id := Pause]), env, AuditEntry(id, AuditPause)), OK)
    case ResumeBot(id) =>
      if id !in s.bots || !ValidEdge(s.bots[id], Normal) then (s, NotFoundStatus)
      else (Logged(s.(bots := s.bots[id := Normal]), env, AuditEntry(id, AuditResume)), OK)
    case DeleteBot(id) =>
      if id !in s.bots then (s, NotFoundStatus)
      else (Logged(s.(bots := s.bots - {id}, running := s.running - {id}), env, AuditEntry(id, AuditDelete)), OK)
  }

  datatype Handled = Handled(req: Rpc, env: Env)

  function After(start: State, reqs: seq<Handled>): State {
    if reqs == [] then start
    else
      var last := reqs[|reqs| - 1];
      Handle(After(start, reqs[..|reqs| - 1]), last.req, last.env).0
  }

  // ---- Reading the audit log back ----

  function Apply(bots: map<BotId, WorkerState>, entry: AuditEntry): map<BotId, WorkerState> {
    match entry.action
    case AuditCreate => bots[entry.botID := Normal]
    case AuditPause => bots[entry.botID := Pause]
    case AuditResume => bots[entry.botID := Normal]
    case AuditDelete => bots - {entry.botID}
  }

  /** The registry that an audit log describes. */
  function Replay(audit: seq<AuditEntry>): map<BotId, WorkerState> {
    if audit == [] then map[] else Apply(Replay(audit[..|audit| - 1]), audit[|audit| - 1])
  }

  predicate Faithful(s: State) { Replay(s.audit) == s.bots }

  lemma ReplayNext(audit: seq<AuditEntry>, entry: AuditEntry)
    ensures Replay(audit + [entry]) == Apply(Replay(audit), entry)
  {
    assert (audit + [entry])[..|audit|] == audit;
  }

  /** A request leaves a faithful journal faithful iff it was refused or its own audit insert went through. */
  lemma StaysFaithfulIff(s: State, req: Rpc, env: Env)
    requires Faithful(s)
    ensures var (s', status) := Handle(s, req, env);
            Faithful(s') <==> status != OK || !env.auditFails
  {
    var (s', status) := Handle(s, req, env);
    if status == OK && !env.auditFails {
      ReplayNext(s.audit, s'.audit[|s.audit|]);
    } else if status == OK {
      assert req.botID in s.bots <==> !req.CreateBot?;
    }
  }

  /** When each request is accepted, which status a refusal gets, and what is stored whether or not it is accepted. */
  lemma StatusOfRequest(s: State, req: Rpc, env: Env)
    ensures var (s', status) := Handle(s, req, env);
            var id := req.botID;
            match req
            case CreateBot(_, pair, cfg) =>
              && (status == InvalidArgument <==> |id| == 0 || |pair| == 0)
              && (status == Internal <==> |id| > 0 && |pair| > 0 && env.persistFails)
              && (status == AlreadyExists <==>
                    |id| > 0 && |pair| > 0 && !env.persistFails && (id in s.bots || env.factoryFails))
              && (status == OK <==>
                    |id| > 0 && |pair| > 0 && !env.persistFails && id !in s.bots && !env.factoryFails)
              && (status in {InvalidArgument, Internal} ==> s' == s)
              && (status in {AlreadyExists, OK} ==>
                    && s'.configs.Keys == s.configs.Keys + {id}
                    && s'.configs[id] == (if id in s.configs then s.configs[id] else cfg)
                    && forall other :: other in s.configs ==> s'.configs[other] == s.configs[other])
            case PauseBot(_) =>
              && (status == OK <==> id in s.bots && s.bots[id] in {Normal, Slow})
              && (status != OK ==> status == NotFoundStatus) && s'.configs == s.configs
            case ResumeBot(_) =>
              && (status == OK <==> id in s.bots && s.bots[id] in {Slow, Pause})
              && (status != OK ==> status == NotFoundStatus) && s'.configs == s.configs
            case DeleteBot(_) =>
              && (status == OK <==> id in s.bots)
              && (status != OK ==> status == NotFoundStatus) && s'.configs == s.configs
  {
  }

  function StateOf(bots: map<BotId, WorkerState>, id: BotId): Option<WorkerState> {
    if id in bots then Some(bots[id]) else None
  }

  /** What an accepted request makes of its bot. */
  function EffectOf(req: Rpc): Option<WorkerState> {
    match req
    case CreateBot(_, _, _) => Some(Normal)
    case PauseBot(_) => Some(Pause)
    case ResumeBot(_) => Some(Normal)
    case DeleteBot(_) => None
  }

  /** A refused request adds no entry and changes no bot; an accepted one has its effect on its own bot, changes no
      other, and adds exactly one entry, its own, if its insert goes through. */
  lemma OneEntryPerSuccess(s: State, req: Rpc, env: Env)
    ensures var (s', status) := Handle(s, req, env);
            && (status != OK ==> s'.audit == s.audit && s'.bots == s.bots && s'.running == s.running)
            && (status == OK ==>
                  && s'.bots != s.bots
                  && StateOf(s'.bots, req.botID) == EffectOf(req)
                  && forall id :: id != req.botID ==> StateOf(s'.bots, id) == StateOf(s.bots, id))
            && (status == OK && env.auditFails ==> s'.audit == s.audit)
            && (status == OK && !env.auditFails ==>
                  && |s'.audit| == |s.audit| + 1 && s'.audit[..|s.audit|] == s.audit
                  && s'.audit[|s.audit|].botID == req.botID
                  && (s'.audit[|s.audit|].action == AuditCreate <==> req.CreateBot?)
                  && (s'.audit[|s.audit|].action == AuditPause <==> req.PauseBot?)
                  && (s'.audit[|s.audit|].action == AuditResume <==> req.ResumeBot?)
                  && (s'.audit[|s.audit|].action == AuditDelete <==> req.DeleteBot?)
                  && Apply(s.bots, s'.audit[|s.audit|]) == s'.bots)
  {
    var (s', status) := Handle(s, req, env);
    if status == OK {
      assert req.botID in s.bots ==> req.botID !in s'.bots || s'.bots[req.botID] != s.bots[req.botID];
      assert req.botID !in s.bots ==> req.botID in s'.bots;
    }
  }

  /** Over any run of requests handled one at a time with every audit insert succeeding, the log replays to exactly the
      registered bots and their states. */
  lemma {:induction false} JournalIsFaithful(reqs: seq<Handled>)
    requires forall k :: 0 <= k < |reqs| ==> !reqs[k].env.auditFails
    ensures Faithful(After(EMPTY, reqs))
  {
    if reqs != [] {
      var n := |reqs| - 1;
      JournalIsFaithful(reqs[..n]);
      StaysFaithfulIff(After(EMPTY, reqs[..n]), reqs[n].req, reqs[n].env);
    }
  }

  /** The effect of the last accepted request for `id`; with `logged`, of the last one whose
      audit insert went through too. */
  function LastEffect(reqs: seq<Handled>, id: BotId, logged: bool): Option<WorkerState> {
    if reqs == [] then None
    else
      var before, last := reqs[..|reqs| - 1], reqs[|reqs| - 1];
      var accepted := Handle(After(EMPTY, before), last.req, last.env).1 == OK;
      if last.req.botID == id && accepted && !(logged && last.env.auditFails)
      then EffectOf(last.req)
      else LastEffect(before, id, logged)
  }

  lemma {:induction false} StateIsLastEffect(reqs: seq<Handled>, id: BotId)
    ensures StateOf(After(EMPTY, reqs).bots, id) == LastEffect(reqs, id, false)
  {
    hide Handle, Apply;
    if reqs != [] {
      var n := |reqs| - 1;
      StateIsLastEffect(reqs[..n], id);
      OneEntryPerSuccess(After(EMPTY, reqs[..n]), reqs[n].req, reqs[n].env);
    }
  }

  lemma {:induction false} ReplayIsLastLogged(reqs: seq<Handled>, id: BotId)
    ensures StateOf(Replay(After(EMPTY, reqs).audit), id) == LastEffect(reqs, id, true)
  {
    hide Handle;
    if reqs != [] {
      var n := |reqs| - 1;
      ReplayIsLastLogged(reqs[..n], id);
      EntryHasEffect(After(EMPTY, reqs[..n]), reqs[n].req, reqs[n].env, id);
    }
  }

  lemma EntryHasEffect(s: State, req: Rpc, env: Env, id: BotId)
    ensures var (s', status) := Handle(s, req, env);
            StateOf(Replay(s'.audit), id) ==
            if req.botID == id && status == OK && !env.auditFails then EffectOf(req) else StateOf(Replay(s.audit), id)
  {
    OwnEntryOnly(s, req, env);
    EntryApplied(Replay(s.audit), req, id);
    hide Handle, Apply, EntryOf, StateOf, EffectOf, Replay;
    ReplayNext(s.audit, EntryOf(req));
  }

  function EntryOf(req: Rpc): AuditEntry {
    match req
    case CreateBot(id, _, _) => AuditEntry(id, AuditCreate)
    case PauseBot(id) => AuditEntry(id, AuditPause)
    case ResumeBot(id) => AuditEntry(id, AuditResume)
    case DeleteBot(id) => AuditEntry(id, AuditDelete)
  }

  lemma OwnEntryOnly(s: State, req: Rpc, env: Env)
    ensures var (s', status) := Handle(s, req, env);
            s'.audit == if status == OK && !env.auditFails then s.audit + [EntryOf(req)] else s.audit
  {
  }

  lemma EntryApplied(bots: map<BotId, WorkerState>, req: Rpc, id: BotId)
    ensures StateOf(Apply(bots, EntryOf(req)), id) == if req.botID == id then EffectOf(req) else StateOf(bots, id)
  {
  }

  /** Over every run, whichever inserts fail: the log is a faithful journal at the end iff, for every bot, the last
      accepted request whose insert went through had the effect of the last accepted one. */
  lemma FaithfulRunIff(reqs: seq<Handled>)
    ensures Faithful(After(EMPTY, reqs)) <==> forall id :: LastEffect(reqs, id, true) == LastEffect(reqs, id, false)
  {
    var s := After(EMPTY, reqs);
    SameStatesSameMap(Replay(s.audit), s.bots);
    hide StateOf;
    forall id
      ensures LastEffect(reqs, id, true) == LastEffect(reqs, id, false) <==>
              StateOf(Replay(s.audit), id) == StateOf(s.bots, id)
    {
      StateIsLastEffect(reqs, id);
      ReplayIsLastLogged(reqs, id);
    }
    if !Faithful(s) {
      var id :| StateOf(Replay(s.audit), id) != StateOf(s.bots, id);
      assert LastEffect(reqs, id, true) != LastEffect(reqs, id, false);
    }
  }

  lemma SameStatesSameMap(a: map<BotId, WorkerState>, b: map<BotId, WorkerState>)
    ensures a == b <==> forall id :: StateOf(a, id) == StateOf(b, id)
  {
    if forall id :: StateOf(a, id) == StateOf(b, id) {
      forall id
        ensures id in a <==> id in b
        ensures id in a ==> a[id] == b[id]
      {
        assert StateOf(a, id) == StateOf(b, id);
      }
    }
  }

  /** A lost entry is made good by the next one for its bot: a pause that is not logged, then a resume that is. */
  lemma LostEntryHealed(id: BotId, pair: string, cfg: BotConfig)
    requires id != [] && pair != "" && cfg.botID == id
    ensures var create := Handled(CreateBot(id, pair, cfg), HEALTHY);
            var lost := Handled(PauseBot(id), Env(false, false, true));
            && !Faithful(After(EMPTY, [create, lost]))
            && Faithful(After(EMPTY, [create, lost, Handled(ResumeBot(id), HEALTHY)]))
  {
    var create, lost := Handled(CreateBot(id, pair, cfg), HEALTHY), Handled(PauseBot(id), Env(false, false, true));
    LostPause(id, pair, cfg);
    ReplayCreateResume(id);
    ThreeRequests(create, lost, Handled(ResumeBot(id), HEALTHY));
    hide After, Handle, Replay;
  }

  lemma ThreeRequests(a: Handled, b: Handled, c: Handled)
    ensures var s := Handle(Handle(EMPTY, a.req, a.env).0, b.req, b.env).0;
            && After(EMPTY, [a, b]) == s
            && After(EMPTY, [a, b, c]) == Handle(s, c.req, c.env).0
  {
    hide Handle;
    OneMoreRequest([], a);
    OneMoreRequest([a], b);
    OneMoreRequest([a, b], c);
    assert [] + [a] == [a] && [a] + [b] == [a, b] && [a, b] + [c] == [a, b, c];
  }

  lemma ReplayCreateResume(id: BotId)
    ensures var entry, next := AuditEntry(id, AuditCreate), AuditEntry(id, AuditResume);
            Replay([entry]) == map[id := Normal] == Replay([entry, next])
  {
    var entry, next := AuditEntry(id, AuditCreate), AuditEntry(id, AuditResume);
    ReplayNext([], entry);
    ReplayNext([entry], next);
    assert [] + [entry] == [entry] && [entry] + [next] == [entry, next];
  }

  lemma LostPause(id: BotId, pair: string, cfg: BotConfig)
    requires id != [] && pair != "" && cfg.botID == id
    ensures var created := Handle(EMPTY, CreateBot(id, pair, cfg), HEALTHY).0;
            var paused := Handle(created, PauseBot(id), Env(false, false, true)).0;
            var resumed := Handle(paused, ResumeBot(id), HEALTHY).0;
            && paused.bots == map[id := Pause] && paused.audit == [AuditEntry(id, AuditCreate)]
            && resumed.bots == map[id := Normal]
            && resumed.audit == [AuditEntry(id, AuditCreate), AuditEntry(id, AuditResume)]
  {
  }

  lemma OneMoreRequest(reqs: seq<Handled>, h: Handled)
    ensures After(EMPTY, reqs + [h]) == Handle(After(EMPTY, reqs), h.req, h.env).0
    ensures After(EMPTY, []) == EMPTY
  {
    assert (reqs + [h])[..|reqs|] == reqs;
  }

  /** The last accepted request for `id`. */
  function LastAccepted(reqs: seq<Handled>, id: BotId): Option<Rpc> {
    if reqs == [] then None
    else
      var before, last := reqs[..|reqs| - 1], reqs[|reqs| - 1];
      var accepted := Handle(After(EMPTY, before), last.req, last.env).1 == OK;
      if last.req.botID == id && accepted then Some(last.req) else LastAccepted(before, id)
  }

  /** A bot is registered iff the last accepted request for it did not delete it; it is reported paused, and may not
      place orders, iff that request paused it, and running iff it created or resumed it. */
  lemma {:induction false} ReportedAsLastAsked(reqs: seq<Handled>, id: BotId)
    ensures var bots, last := After(EMPTY, reqs).bots, LastAccepted(reqs, id);
            && (id in bots <==> last.Some? && !last.value.DeleteBot?)
            && (id in bots ==>
                  && (ReportedState(bots[id]) == Paused <==> last.value.PauseBot?)
                  && (ReportedState(bots[id]) == Running <==> last.value.CreateBot? || last.value.ResumeBot?)
                  && (ReportedState(bots[id]) == Paused <==> !MayPlaceOrders(bots[id])))
  {
    if reqs != [] {
      var n := |reqs| - 1;
      ReportedAsLastAsked(reqs[..n], id);
      OneEntryPerSuccess(After(EMPTY, reqs[..n]), reqs[n].req, reqs[n].env);
      hide Handle, Apply;
    }
  }

  /** None of these requests ever leaves a bot in Slow. */
  lemma {:induction false} NeverSlow(reqs: seq<Handled>)
    ensures forall id :: id in After(EMPTY, reqs).bots ==> After(EMPTY, reqs).bots[id] != Slow
  {
    if reqs != [] {
      NeverSlow(reqs[..|reqs| - 1]);
    }
  }

  /** The audit log is only ever appended to. */
  lemma {:induction false} AuditGrows(start: State, reqs: seq<Handled>, k: nat)
    requires k <= |reqs|
    ensures After(start, reqs[..k]).audit <= After(start, reqs).audit
  {
    if k == |reqs| {
      assert reqs[..k] == reqs;
    } else {
      var n := |reqs| - 1;
      assert reqs[..n][..k] == reqs[..k];
      AuditGrows(start, reqs[..n], k);
      OneRequestAppends(After(start, reqs[..n]), reqs[n].req, reqs[n].env);
      hide Handle;
    }
  }

  lemma OneRequestAppends(s: State, req: Rpc, env: Env)
    ensures var s' := Handle(s, req, env).0;
            && s.audit <= s'.audit
            && s.configs.Keys <= s'.configs.Keys
            && forall id :: id in s.configs ==> s'.configs[id] == s.configs[id]
  {
  }

  /** None of these requests changes a stored config, even when its bot is deleted and created again with other
      settings. */
  lemma {:induction false} FirstConfigStays(start: State, reqs: seq<Handled>, k: nat, id: BotId)
    requires k <= |reqs| && id in After(start, reqs[..k]).configs
    ensures id in After(start, reqs).configs && After(start, reqs).configs[id] == After(start, reqs[..k]).configs[id]
  {
    if k == |reqs| {
      assert reqs[..k] == reqs;
    } else {
      var n := |reqs| - 1;
      assert reqs[..n][..k] == reqs[..k];
      FirstConfigStays(start, reqs[..n], k, id);
      OneRequestAppends(After(start, reqs[..n]), reqs[n].req, reqs[n].env);
      hide Handle;
    }
  }

  /** Exactly the registered bots run on a config, and each of them has a stored one. */
  lemma {:induction false} BotsAreConfigured(reqs: seq<Handled>)
    ensures var s := After(EMPTY, reqs); s.bots.Keys == s.running.Keys <= s.configs.Keys
  {
    if reqs != [] {
      BotsAreConfigured(reqs[..|reqs| - 1]);
    }
  }

  // ---- Does the stored config describe the running bot? ----

  /** Request k creates bot `id` and is accepted. */
  predicate AcceptedCreate(reqs: seq<Handled>, k: nat, id: BotId) {
    && k < |reqs| && reqs[k].req.CreateBot? && reqs[k].req.botID == id
    && Handle(After(EMPTY, reqs[..k]), reqs[k].req, reqs[k].env).1 == OK
  }

  /** After an accepted create the stored config is the running one iff none was stored before, or the very same. */
  lemma CreateMatchesIff(s: State, req: Rpc, env: Env)
    requires req.CreateBot? && Handle(s, req, env).1 == OK
    ensures var s', id := Handle(s, req, env).0, req.botID;
            && id in s'.configs && id in s'.running && s'.running[id] == req.cfg
            && (s'.configs[id] == s'.running[id] <==> id !in s.configs || s.configs[id] == req.cfg)
  {
  }

  /** Only its own accepted create registers a bot or changes the config it runs on. */
  lemma OthersKeepRunning(s: State, req: Rpc, env: Env, id: BotId)
    requires s.running.Keys == s.bots.Keys && id in Handle(s, req, env).0.bots
    requires !(req.CreateBot? && req.botID == id && Handle(s, req, env).1 == OK)
    ensures id in s.running && id in Handle(s, req, env).0.running
    ensures Handle(s, req, env).0.running[id] == s.running[id]
  {
  }

  /** Over every run: a registered bot runs on the config of the last accepted create of it, request k, and the stored
      config is that one iff, when k was handled, none was stored or the very same. */
  lemma {:induction false} StoredDescribesRunningIff(reqs: seq<Handled>, id: BotId) returns (k: nat)
    requires id in After(EMPTY, reqs).bots
    ensures AcceptedCreate(reqs, k, id) && forall j :: k < j ==> !AcceptedCreate(reqs, j, id)
    ensures var s, before, cfg := After(EMPTY, reqs), After(EMPTY, reqs[..k]), reqs[k].req.cfg;
            && id in s.configs && id in s.running && s.running[id] == cfg
            && (s.configs[id] == s.running[id] <==> id !in before.configs || before.configs[id] == cfg)
  {
    var n := |reqs| - 1;
    var s, last := After(EMPTY, reqs[..n]), reqs[n];
    if AcceptedCreate(reqs, n, id) {
      k := n;
      CreateMatchesIff(s, last.req, last.env);
    } else {
      hide Handle;
      BotsAreConfigured(reqs[..n]);
      OthersKeepRunning(s, last.req, last.env, id);
      OneRequestAppends(s, last.req, last.env);
      k := StoredDescribesRunningIff(reqs[..n], id);
      forall j | 0 <= j < n
        ensures AcceptedCreate(reqs, j, id) <==> AcceptedCreate(reqs[..n], j, id)
      {
        assert reqs[..n][..j] == reqs[..j];
      }
      assert reqs[..n][..k] == reqs[..k];
    }
  }

  /** The request upserts a config for `id`, whether or not it is accepted afterwards. */
  predicate Upserts(h: Handled, id: BotId) {
    h.req.CreateBot? && h.req.botID == id && id != [] && h.req.tradingPair != "" && !h.env.persistFails
  }

  /** The config of the first request that upserts one for `id`. */
  function FirstUpsert(reqs: seq<Handled>, id: BotId): Option<BotConfig> {
    if reqs == [] then None
    else
      var before, last := FirstUpsert(reqs[..|reqs| - 1], id), reqs[|reqs| - 1];
      if before.None? && Upserts(last, id) then Some(last.req.cfg) else before
  }

  /** What is stored for an id is what the first upsert for it said, even if that request failed to start the bot. */
  lemma {:induction false} StoredIsFirstUpsert(reqs: seq<Handled>, id: BotId)
    ensures var configs := After(EMPTY, reqs).configs;
            FirstUpsert(reqs, id) == if id in configs then Some(configs[id]) else None
  {
    if reqs != [] {
      StoredIsFirstUpsert(reqs[..|reqs| - 1], id);
    }
  }

  const HEALTHY := Env(false, false, false)

  /** Create with a, delete, create again with b: the bot runs on b while a stays stored. */
  lemma RecreatedRunsUnstoredConfig(id: BotId, pair: string, a: BotConfig, b: BotConfig)
    requires id != [] && pair != "" && a.botID == id == b.botID && a != b
    ensures var create, delete := Handled(CreateBot(id, pair, a), HEALTHY), Handled(DeleteBot(id), HEALTHY);
            var reqs := [create, delete, Handled(CreateBot(id, pair, b), HEALTHY)];
            var s := After(EMPTY, reqs);
            && AcceptedCreate(reqs, 2, id)
            && id in s.running && s.running[id] == b
            && id in s.configs && s.configs[id] == a
  {
    var create, delete := Handled(CreateBot(id, pair, a), HEALTHY), Handled(DeleteBot(id), HEALTHY);
    var again := Handled(CreateBot(id, pair, b), HEALTHY);
    var reqs := [create, delete, again];
    assert reqs[..2] == [create, delete] && [create, delete][..1] == [create] && [create][..0] == [];
    assert After(EMPTY, [create]) == Handle(EMPTY, create.req, HEALTHY).0;
    assert After(EMPTY, reqs[..2]) == Handle(After(EMPTY, [create]), delete.req, HEALTHY).0;
  }
}
