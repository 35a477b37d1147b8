/** The gRPC server (internal/api/grpc_server.go) driving the sharded registry and the stores in place. */
module Api {
  import opened Common
  import opened Workers
  import opened Orchestrator
  import opened Journal

  class Server {
    const orch: Orchestrator

    var configs: map<BotId, BotConfig>
    var audit: seq<AuditEntry>

    ghost predicate Valid()
      reads this, orch
    {
      orch.Valid()
    }

    ghost function Abs(): State
      reads this, orch, orch.Workers()
    {
      State(orch.View(), orch.started, configs, audit)
    }

    constructor (orch: Orchestrator)
      requires orch.Valid()
      ensures Valid() && this.orch == orch && Abs() == State(orch.View(), orch.started, map[], [])
    {
      this.orch := orch;
      configs, audit := map[], [];
    }

    method WriteAudit(botID: BotId, action: AuditAction, fails: bool)
      modifies `audit
      ensures configs == old(configs)
      ensures audit == if fails then old(audit) else old(audit) + [AuditEntry(botID, action)]
    {
      if !fails {
        audit := audit + [AuditEntry(botID, action)];
      }
    }

    method CreateBot(botID: BotId, tradingPair: string, cfg: BotConfig, env: Env) returns (status: Status)
      requires Valid() && cfg.botID == botID && env.factoryFails == orch.factory(cfg).Err?
      modifies this, orch
      ensures Valid()
      ensures (Abs(), status) == Handle(old(Abs()), Request.CreateBot(botID, tradingPair, cfg), env)
    {
      hide Orchestrator.Valid;
      if botID == [] || tradingPair == "" {
        return InvalidArgument;
      }
      if env.persistFails {
        return Internal;
      }
      if botID !in configs {
        configs := configs[botID := cfg];
      }
      assert orch.View() == old(orch.View());
      var err := orch.StartBot(cfg);
      if err.Some? {
        return AlreadyExists;
      }
      WriteAudit(botID, AuditCreate, env.auditFails);
      assert orch.View() == old(orch.View())[botID := Normal];
      status := OK;
    }

    method PauseBot(botID: BotId, env: Env) returns (status: Status)
      requires Valid()
      modifies this, orch.Workers()
      ensures Valid()
      ensures (Abs(), status) == Handle(old(Abs()), Request.PauseBot(botID), env)
    {
      hide Orchestrator.Valid;
      var err := orch.PauseBot(botID);
      if err.Some? {
        return NotFoundStatus;
      }
      WriteAudit(botID, AuditPause, env.auditFails);
      status := OK;
    }

    method ResumeBot(botID: BotId, env: Env) returns (status: Status)
      requires Valid()
      modifies this, orch.Workers()
      ensures Valid()
      ensures (Abs(), status) == Handle(old(Abs()), Request.ResumeBot(botID), env)
    {
      hide Orchestrator.Valid;
      var err := orch.ResumeBot(botID);
      if err.Some? {
        return NotFoundStatus;
      }
      WriteAudit(botID, AuditResume, env.auditFails);
      status := OK;
    }

    method DeleteBot(botID: BotId, env: Env) returns (status: Status)
      requires Valid()
      modifies this, orch
      ensures Valid()
      ensures (Abs(), status) == Handle(old(Abs()), Request.DeleteBot(botID), env)
    {
      hide Orchestrator.Valid;
      var err := orch.StopBot(botID);
      if err.Some? {
        return NotFoundStatus;
      }
      WriteAudit(botID, AuditDelete, env.auditFails);
      assert orch.View() == old(orch.View()) - {botID};
      status := OK;
    }
  }
}
