/** What becomes of a reconcile when a call of it fails: which failures end it, with which result, and which it
    carries on after. */
module Failures {
  import opened Cluster
  import opened Listing
  import opened Controllers

  /** A backup gives up at the first failing call and reports an error. */
  lemma BackupGivesUp(b: Key, pc: Pc)
    requires b.kind == DirectoryBackup && Ready(b.kind, pc) && !pc.Finished?
    ensures Resume(b, pc, Failed) == Finished(Outcome(0, true))
  {
    hide Fresh, Resolve, Adjusted, Scheduled, Synchronised;
  }

  /** So does a restore, except that it carries on without its snapshot. */
  lemma RestoreGivesUp(r: Key, pc: Pc)
    requires r.kind == DirectoryRestore && Ready(r.kind, pc) && !pc.Finished?
    ensures Resume(r, pc, Failed)
            == if !pc.Start? && pc.stage.RestoreSnapshot? then At(RestoreStatus(pc.stage.times, true), pc.cr)
               else Finished(Outcome(0, true))
  {
    hide Fresh, Resolve, Adjusted, Scheduled, Synchronised;
  }

  /** A service gives up at a failing claim, StatefulSet, Service, secret, proxy, status or listing for the prune and
      asks to come back in a minute with an error. */
  lemma ServiceGivesUp(d: Key, pc: Pc)
    requires d.kind == DirectoryService && Ready(d.kind, pc) && !pc.Start? && !pc.Finished?
    requires || pc.stage.ServiceClaim? || pc.stage.Set? || pc.stage.Headless? || pc.stage.Secrets? || pc.stage.Proxy?
             || pc.stage.SnapFirst? || pc.stage.SnapStatus? || pc.stage.SnapList?
    ensures Resume(d, pc, Failed) == Finished(Outcome(60, true))
  {
    hide Fresh, Resolve, Adjusted;
  }

  /** It carries on after a failing snapshot, whose time it records all the same, after a failing deletion, and without
      a data source after a failing listing of what `$(latest)` stands for. */
  lemma ServiceCarriesOn(d: Key, pc: Pc)
    requires d.kind == DirectoryService && Ready(d.kind, pc) && !pc.Start? && !pc.Finished?
    ensures pc.stage.SnapCreate? ==> Resume(d, pc, Failed) == At(SnapStatus(pc.stage.now), pc.cr)
    ensures pc.At? && pc.stage.Prune? && pc.stage.index + 1 < |pc.stage.items| - pc.cr.spec.schedule.retained
            && pc.cr.spec.schedule.retained >= 0 ==>
              Resume(d, pc, Failed) == At(Prune(pc.stage.items, pc.stage.index + 1), pc.cr)
    ensures pc.At? && (pc.stage.ServiceClaimList? || pc.stage.SetList?) ==> Resume(d, pc, Failed).Creating?
  {
    hide Fresh, Resolve, Adjusted;
  }

  /** Trouble with the directory is no error: the reconcile comes back in 90 seconds without a connection, in 60 after a
      failing lookup or change of a password; a bind that fails leads to a change, and one without a connection to a
      panic. Failing to write the custom resource or its status at the end is an error. */
  lemma DirectoryTrouble(d: Key, pc: Pc)
    requires d.kind == DirectoryService && Ready(d.kind, pc) && pc.At?
    ensures pc.stage.Connect? ==> Resume(d, pc, Failed) == Finished(Outcome(90, false))
    ensures pc.stage.PassLookup? || pc.stage.PassSet? ==> Resume(d, pc, Failed) == Finished(Outcome(60, false))
    ensures pc.stage.PassBind? ==>
              && Resume(d, pc, Failed)
                   == At(PassSet(pc.stage.dn, pc.stage.password, pc.stage.todo, pc.stage.now), pc.cr)
              && Resume(d, pc, Unreachable) == Finished(Panicked(NilConnection))
    ensures pc.stage.UpdateCr? || pc.stage.FinalStatus? ==> Resume(d, pc, Failed) == Finished(Outcome(0, true))
  {
    hide Fresh, Resolve, Adjusted;
  }

  /** A custom resource that is gone ends its reconcile quietly; one that cannot be read ends it with an error. */
  lemma LookingForTheResource(req: Key, reply: Reply)
    requires IsCustom(req.kind)
    ensures Resume(req, Start, Missing) == Finished(Outcome(0, false))
    ensures Resume(req, Start, Failed) == Finished(Outcome(0, true))
  {
  }
}
