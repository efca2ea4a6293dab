/** The pattern of addDependency calls that most schedules share. */
module Stages {
  import opened Actions
  import opened ActorState
  import opened Executor

  /** Two actions for the next step, each waiting for both actions of the previous step. */
  method AddStage(actor: DagActor, send: Id, sendAction: Action, recv: Id, recvAction: Action,
                  prevSend: Option<Id>, prevRecv: Option<Id>)
    requires Built(actor.F()) && send !in actor.acts && recv !in actor.acts && send != recv
    requires prevSend.Some? == prevRecv.Some?
    modifies actor
    ensures Built(actor.F())
    ensures actor.acts == old(actor.acts)[send := sendAction][recv := recvAction]
    ensures prevSend.None? ==> actor.pending == old(actor.pending)
    ensures prevSend.Some? ==>
              actor.pending == old(actor.pending) +
                [(prevSend.value, send), (prevSend.value, recv), (prevRecv.value, send), (prevRecv.value, recv)]
  {
    hide Built;
    actor.AddDependency(prevSend, send, sendAction);
    actor.AddDependency(prevSend, recv, recvAction);
    actor.AddDependency(prevRecv, send, sendAction);
    actor.AddDependency(prevRecv, recv, recvAction);
  }
}
