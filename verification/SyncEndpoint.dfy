/** The push endpoint: authorise, then apply, in one transaction. */
module SyncEndpoint {
  import opened SyncSchema
  import opened SyncStore
  import opened SyncApply
  import opened SyncApplyProofs
  import opened SyncBatch
  import opened SyncNode
  import opened SyncAuthorize
  import opened SyncAuthorizeProofs
  import opened SyncVisibility
  import opened SyncRoles

  datatype Response = Forbidden | PayloadMismatch | Answer(outcome: Outcome)

  function PushSession(env: Env): Session {
    Session(env, ClientSide, true)
  }

  class Endpoint {
    const db: Node
    const env: Env

    constructor (node: Node, environment: Env)
      ensures db == node && env == environment
    {
      db, env := node, environment;
    }

    /** A batch with one row out of bounds, or one that contradicts a receipt, changes nothing at all; any
        other batch only changes rows of projects the account may act in. What every push demands of the
        database, every push leaves behind. */
    method Push(account: Id, clientId: Id, changes: seq<Change>, draw: nat -> Draw) returns (response: Response)
      requires !db.applying && DatabaseOk(db.rows)
      modifies db
      ensures !db.applying && DatabaseOk(db.rows)
      ensures response == Forbidden <==> !AllAllowed(old(db.rows), changes, account)
      ensures response == PayloadMismatch <==>
                AllAllowed(old(db.rows), changes, account)
                && ApplyBatch(PushSession(env), Some(Peer(account, clientId)), old(db.Data()), old(db.receipts),
                  changes, draw).Aborted?
      ensures !response.Answer? ==> db.Data() == old(db.Data()) && db.receipts == old(db.receipts)
      ensures response.Answer? ==>
                var q := ApplyBatch(PushSession(env), Some(Peer(account, clientId)), old(db.Data()), old(db.receipts),
                  changes, draw);
                q.Running? && response.outcome == q.out && db.Data() == q.store && db.receipts == q.receipts
      ensures forall k | !SameAt(old(db.rows), db.rows, k) ::
                && (k in old(db.rows) ==>
                      MayTouch(Request(old(db.rows), changes, account), k.table, StoredProject(old(db.rows), k)))
                && (k in db.rows ==>
                      MayTouch(Request(old(db.rows), changes, account), k.table, StoredProject(db.rows, k)))
      ensures forall k, project: Id |
                && !SameAt(old(db.rows), db.rows, k) && Key(Projects, project) in old(db.rows)
                && ((k in old(db.rows) && LiesIn(old(db.rows), k, project))
                    || (k in db.rows && LiesIn(db.rows, k, project))) ::
                if k.table == Memos || k.table == MemoVersions then IsEditor(old(db.rows), project, account)
                else IsOwner(old(db.rows), project, account)
    {
      hide ApplyBatch, AllAllowed, MayTouch, RowsValid, MembershipsDistinct, NoBlankParents, StoredProject, LiesIn,
        IsOwner, IsEditor;
      var authorizer := new Authorizer(db.rows, changes, account);
      var accepted := authorizer.Authorize();
      if !accepted {
        return Forbidden;
      }
      var answer := db.ReceivePush(env, Peer(account, clientId), changes, draw);
      if answer.None? {
        return PayloadMismatch;
      }
      response := Answer(answer.value);
      AcceptedBatchKeepsDatabase(
        PushSession(env), Some(Peer(account, clientId)), old(db.Data()), old(db.receipts), changes, draw, account);
      ghost var was := old(db.Data());
      forall k, project: Id |
        && !SameAt(was.rows, db.rows, k) && Key(Projects, project) in was.rows
        && ((k in was.rows && LiesIn(was.rows, k, project)) || (k in db.rows && LiesIn(db.rows, k, project)))
        ensures if k.table == Memos || k.table == MemoVersions then IsEditor(was.rows, project, account)
                else IsOwner(was.rows, project, account)
      {
        AcceptedBatchNeedsRoles(PushSession(env), Some(Peer(account, clientId)), was, old(db.receipts), changes, draw,
          account, k, project);
      }
      forall k | !SameAt(was.rows, db.rows, k)
        ensures k in was.rows ==> MayTouch(Request(was.rows, changes, account), k.table, StoredProject(was.rows, k))
        ensures k in db.rows ==> MayTouch(Request(was.rows, changes, account), k.table, StoredProject(db.rows, k))
      {
        AcceptedBatchStaysInBounds(PushSession(env), Some(Peer(account, clientId)), was, old(db.receipts), changes,
          draw, account, k);
      }
    }
  }
}
