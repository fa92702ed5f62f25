/** The services of the Agent Runtime Manager over one set of tables: every step of the state machine is a call. */
module Manager {
  import opened Wrappers
  import opened SandboxNetwork
  import opened Fleet
  import opened Reconciliation
  import opened Provisioning
  import opened ArmApi
  import opened Lifecycle

  class Services {
    const cluster: Cluster
    const settings: Settings
    const reconciler: ReconciliationService
    const provisioning: ProvisioningService
    const routes: ArmRoutes

    ghost predicate Valid() {
      && provisioning.Wired() && routes.Wired()
      && reconciler.cluster == cluster && provisioning.cluster == cluster && routes.cluster == cluster
      && reconciler.settings == settings && provisioning.settings == settings && routes.settings == settings
    }

    constructor (cluster: Cluster, settings: Settings)
      ensures Valid() && this.cluster == cluster && this.settings == settings
    {
      this.cluster, this.settings := cluster, settings;
      this.reconciler := new ReconciliationService(cluster, settings);
      this.provisioning := new ProvisioningService(cluster, settings);
      this.routes := new ArmRoutes(cluster, settings);
    }

    /** What a step of the state machine stands for: a job, a pass, a route, one row of a sweep, or a change of the
        inventory that is nobody's call. */
    method Perform(step: Step)
      requires Valid()
      modifies cluster, cluster.kea
      ensures cluster.View() == Next(old(cluster.View()), step, settings)
    {
      match step {
        case SubmitStep(req, runtimeId, jobId, now) => provisioning.SubmitRequest(req, runtimeId, jobId, now);
        case RunStep(jobId, env) => provisioning.Run(jobId, env);
        case ReconcileStep(id, env) => reconciler.Reconcile(id, env);
        case ExpireStep(id, now) => Expire(id, now);
        case SetDesiredStep(id, desired, now) => var _ := routes.PostDesiredState(id, desired, now);
        case SupersedeStep(id, live, now) => var _ := routes.PostSupersede(id, live, now);
        case DestroyStep(id, env) => var _ := routes.DeleteRuntime(id, env);
        case ExtendTtlStep(id, hours, now) => var _ := routes.PostExtendTtl(id, hours, now);
        case OutsideStep(vms) => cluster.vms := vms;
      }
    }

    method Expire(id: Id, now: int)
      modifies cluster
      ensures cluster.View() == Expired(old(cluster.View()), id, now)
    {
      if id in cluster.rows && Stale(cluster.rows[id], now) {
        cluster.rows := cluster.rows[id := cluster.rows[id].(desired := DesiredDestroyed, updatedAt := now)];
        cluster.Record(Reconciler, "sandbox_ttl_expired", id);
      }
    }
  }
}
