/**
 * The admin routes: creating an admin account, and the approval workflow over the
 * `approvalChats` collection (create as pending, list the pending ones, approve,
 * disapprove, count by status).
 */
module AdminRoutes {
  import opened Common
  import opened Store
  import AdminMiddleware

  /** The outcome of `POST /signupAdmin`: the new account's id and its user document, or the error reply. */
  datatype SignupOutcome = SignedUp(uid: string, doc: UserDoc) | SignupRefused(status: nat, error: string, details: string)

  /**
   * `POST /signupAdmin`: both fields are required; the account is created by
   * `createUser` (Firebase Auth, which may refuse) and its document is set to exactly
   * `{ email, role: 'admin' }`.
   */
  function SignupAdmin(email: Option<string>, password: Option<string>, createUser: (string, string) -> Result<string>)
    : (r: SignupOutcome)
    ensures !Truthy(email) || !Truthy(password) <==> r == SignupRefused(400, "Email and password are required.", "")
    ensures Truthy(email) && Truthy(password) && createUser(email.value, password.value).Err? ==>
      r == SignupRefused(500, "Failed to create admin user", createUser(email.value, password.value).msg)
    ensures r.SignedUp? ==> Truthy(email) && Truthy(password) && createUser(email.value, password.value) == Ok(r.uid)
    ensures r.SignedUp? ==> r.doc.email == email && r.doc.role == Some("admin")
    ensures r.SignedUp? ==> r.doc.subscriptionTier.None? && r.doc.tokenCount.None? && r.doc.imageGenerationCount.None?
  {
    if !Truthy(email) || !Truthy(password) then SignupRefused(400, "Email and password are required.", "")
    else match createUser(email.value, password.value)
      case Err(m) => SignupRefused(500, "Failed to create admin user", m)
      case Ok(uid) => SignedUp(uid, UserDoc(email, Some("admin"), None, None, None, None, None, None))
  }

  /** An account made by `signupAdmin` passes the admin gate. */
  lemma SignedUpAdminIsAdmitted(email: Option<string>, password: Option<string>, createUser: (string, string) -> Result<string>)
    requires SignupAdmin(email, password, createUser).SignedUp?
    ensures AdminMiddleware.AdminCheck(Found(Some(SignupAdmin(email, password, createUser).doc))) == Next(())
  {
  }

  /**
   * The route as registered has no `authMiddleware` or `adminMiddleware`, although its
   * comment says it is for existing admins: a caller the admin gate refuses still
   * creates an admin account.
   */
  lemma RefusedCallerCreatesAdmin(caller: UserDoc, createUser: (string, string) -> Result<string>)
    requires caller.role == Some("user")
    requires createUser("new@example.com", "secret") == Ok("u1")
    ensures AdminMiddleware.AdminCheck(Found(Some(caller))) == Halt(403, "Access denied. Admins only.")
    ensures SignupAdmin(Some("new@example.com"), Some("secret"), createUser).SignedUp?
  {
  }

  /**
   * `POST /signupAdmin` behind `adminMiddleware`, as its comment intends: the gate's
   * refusal is the reply, and only an admin caller reaches account creation.
   */
  function GatedSignupAdmin(caller: Lookup<Option<UserDoc>>, email: Option<string>, password: Option<string>,
                            createUser: (string, string) -> Result<string>): (r: SignupOutcome)
    ensures AdminMiddleware.AdminCheck(caller).Halt? ==>
      r == SignupRefused(AdminMiddleware.AdminCheck(caller).status, AdminMiddleware.AdminCheck(caller).error, "")
    ensures AdminMiddleware.AdminCheck(caller).Next? ==> r == SignupAdmin(email, password, createUser)
    ensures r.SignedUp? ==> caller.Found? && caller.value.Some? && caller.value.value.role == Some("admin")
  {
    match AdminMiddleware.AdminCheck(caller)
    case Halt(status, error) => SignupRefused(status, error, "")
    case Next(_) => SignupAdmin(email, password, createUser)
  }

  /** A document of `approvalChats`. */
  datatype ApprovalChat = ApprovalChat(name: string, botId: Option<string>, status: Option<string>)

  type ApprovalChats = map<string, ApprovalChat>

  /**
   * `POST /approval-chats/create`: a new document under the fresh id `newId` that
   * `add` chooses, named `name || 'Untitled Chat'`, pending.
   */
  function CreateApprovalChat(chats: ApprovalChats, newId: string, name: Option<string>, botId: Option<string>)
    : (r: ApprovalChats)
    requires newId !in chats
    ensures r.Keys == chats.Keys + {newId}
    ensures forall id :: id in chats ==> r[id] == chats[id]
    ensures r[newId].status == Some("pending") && r[newId].botId == botId
    ensures r[newId].name == if Truthy(name) then name.value else "Untitled Chat"
  {
    chats[newId := ApprovalChat(OrElse(name, "Untitled Chat"), botId, Some("pending"))]
  }

  /**
   * `update({ status })` of one approval chat after the existence check: 404 and no
   * change for a missing chat; the current status is not looked at.
   */
  function SetStatus(chats: ApprovalChats, chatId: string, status: string): (r: Checked<ApprovalChats>)
    ensures chatId !in chats <==> r == Invalid(404, "Chat not found")
    ensures r.Valid? ==> r.value.Keys == chats.Keys
    ensures r.Valid? ==> r.value[chatId] == chats[chatId].(status := Some(status))
    ensures r.Valid? ==> forall id :: id in chats && id != chatId ==> r.value[id] == chats[id]
  {
    if chatId !in chats then Invalid(404, "Chat not found")
    else Valid(chats[chatId := chats[chatId].(status := Some(status))])
  }

  /** `PATCH /approval-chats/:chatId/approve`. */
  function Approve(chats: ApprovalChats, chatId: string): (r: Checked<ApprovalChats>)
    ensures r == SetStatus(chats, chatId, "approved")
  {
    SetStatus(chats, chatId, "approved")
  }

  /** `PATCH /approval-chats/:chatId/disapprove`. */
  function Disapprove(chats: ApprovalChats, chatId: string): (r: Checked<ApprovalChats>)
    ensures r == SetStatus(chats, chatId, "disapproved")
  {
    SetStatus(chats, chatId, "disapproved")
  }

  /** Repeating an approval or a disapproval changes nothing more. */
  lemma DecisionsIdempotent(chats: ApprovalChats, chatId: string)
    requires chatId in chats
    ensures Approve(Approve(chats, chatId).value, chatId) == Approve(chats, chatId)
    ensures Disapprove(Disapprove(chats, chatId).value, chatId) == Disapprove(chats, chatId)
  {
    var a := Approve(chats, chatId).value;
    assert a[chatId := a[chatId].(status := Some("approved"))] == a;
    var d := Disapprove(chats, chatId).value;
    assert d[chatId := d[chatId].(status := Some("disapproved"))] == d;
  }

  /** The last decision wins, whatever came before: a disapproved chat can be approved and the reverse. */
  lemma LastDecisionWins(chats: ApprovalChats, chatId: string)
    requires chatId in chats
    ensures Approve(Disapprove(chats, chatId).value, chatId) == Approve(chats, chatId)
    ensures Disapprove(Approve(chats, chatId).value, chatId) == Disapprove(chats, chatId)
  {
    var d := Disapprove(chats, chatId).value;
    assert d[chatId := d[chatId].(status := Some("approved"))] == chats[chatId := chats[chatId].(status := Some("approved"))];
    var a := Approve(chats, chatId).value;
    assert a[chatId := a[chatId].(status := Some("disapproved"))] == chats[chatId := chats[chatId].(status := Some("disapproved"))];
  }

  /** `GET /approval-chats/pending`: the query `where("status", "==", "pending")` over the collection in query order. */
  function PendingChats(docs: seq<(string, ApprovalChat)>): (r: seq<(string, ApprovalChat)>)
    ensures forall i :: 0 <= i < |r| ==> r[i] in docs && r[i].1.status == Some("pending")
    ensures forall i :: 0 <= i < |docs| && docs[i].1.status == Some("pending") ==> docs[i] in r
  {
    if |docs| == 0 then []
    else
      var rest := PendingChats(docs[..|docs| - 1]);
      var last := docs[|docs| - 1];
      assert forall i :: 0 <= i < |docs| - 1 ==> docs[..|docs| - 1][i] == docs[i];
      if last.1.status == Some("pending") then rest + [last] else rest
  }

  /** The positions of the pending documents, in query order. */
  function PendingPositions(docs: seq<(string, ApprovalChat)>): seq<nat> {
    if |docs| == 0 then []
    else PendingPositions(docs[..|docs| - 1]) + (if docs[|docs| - 1].1.status == Some("pending") then [|docs| - 1] else [])
  }

  /** Every pending position is a position of the collection. */
  lemma {:induction false} PendingPositionsInRange(docs: seq<(string, ApprovalChat)>)
    ensures forall j :: 0 <= j < |PendingPositions(docs)| ==> PendingPositions(docs)[j] < |docs|
  {
    if |docs| > 0 {
      PendingPositionsInRange(docs[..|docs| - 1]);
    }
  }

  /** The pending positions increase, and a position is among them iff its document is pending. */
  lemma {:induction false} PendingPositionsExact(docs: seq<(string, ApprovalChat)>)
    ensures forall j, k :: 0 <= j < k < |PendingPositions(docs)| ==> PendingPositions(docs)[j] < PendingPositions(docs)[k]
    ensures forall i :: 0 <= i < |docs| ==> (docs[i].1.status == Some("pending") <==> i in PendingPositions(docs))
  {
    if |docs| > 0 {
      var n := |docs| - 1;
      var init := docs[..n];
      PendingPositionsExact(init);
      PendingPositionsInRange(init);
      assert forall i :: 0 <= i < n ==> init[i] == docs[i];
      assert n !in PendingPositions(init);
    }
  }

  /** The pending list holds, in turn, the document at each pending position. */
  lemma {:induction false} PendingChatsAtPositions(docs: seq<(string, ApprovalChat)>)
    ensures |PendingChats(docs)| == |PendingPositions(docs)|
    ensures forall j :: 0 <= j < |PendingPositions(docs)| ==>
      PendingPositions(docs)[j] < |docs| && PendingChats(docs)[j] == docs[PendingPositions(docs)[j]]
  {
    PendingPositionsInRange(docs);
    if |docs| > 0 {
      var n := |docs| - 1;
      var init := docs[..n];
      PendingChatsAtPositions(init);
      var p0 := PendingPositions(init);
      var r0 := PendingChats(init);
      assert PendingChats(docs)[..|r0|] == r0;
      assert PendingPositions(docs)[..|p0|] == p0;
      forall j | 0 <= j < |p0|
        ensures PendingChats(docs)[j] == docs[PendingPositions(docs)[j]]
      {
        assert init[p0[j]] == docs[p0[j]];
      }
    }
  }

  /**
   * The pending list is exactly the pending documents, each once and in query order:
   * its entries sit at increasing positions of the collection, and a position is among
   * them iff that document is pending.
   */
  lemma PendingChatsIsOrderedFilter(docs: seq<(string, ApprovalChat)>)
    ensures |PendingChats(docs)| == |PendingPositions(docs)|
    ensures forall j :: 0 <= j < |PendingPositions(docs)| ==>
      PendingPositions(docs)[j] < |docs| && PendingChats(docs)[j] == docs[PendingPositions(docs)[j]]
    ensures forall j, k :: 0 <= j < k < |PendingPositions(docs)| ==> PendingPositions(docs)[j] < PendingPositions(docs)[k]
    ensures forall i :: 0 <= i < |docs| ==> (docs[i].1.status == Some("pending") <==> i in PendingPositions(docs))
  {
    PendingChatsAtPositions(docs);
    PendingPositionsExact(docs);
  }

  /** The reply of `GET /analytics`. */
  datatype StatusCounts = StatusCounts(pending: nat, approved: nat, disapproved: nat)

  /** The number of documents whose status is exactly `s`. */
  function CountStatus(statuses: seq<Option<string>>, s: string): nat {
    if |statuses| == 0 then 0
    else CountStatus(statuses[..|statuses| - 1], s) + (if statuses[|statuses| - 1] == Some(s) then 1 else 0)
  }

  /**
   * `GET /analytics`: the `forEach` over the collection, adding one to the counter
   * named by each document's status when there is one; any other status is skipped.
   */
  method Analytics(statuses: seq<Option<string>>) returns (c: StatusCounts)
    ensures c.pending == CountStatus(statuses, "pending")
    ensures c.approved == CountStatus(statuses, "approved")
    ensures c.disapproved == CountStatus(statuses, "disapproved")
  {
    c := StatusCounts(0, 0, 0);
    var i := 0;
    while i < |statuses|
      invariant 0 <= i <= |statuses|
      invariant c.pending == CountStatus(statuses[..i], "pending")
      invariant c.approved == CountStatus(statuses[..i], "approved")
      invariant c.disapproved == CountStatus(statuses[..i], "disapproved")
    {
      assert statuses[..i + 1][..i] == statuses[..i];
      match statuses[i] {
        case Some("pending") => c := c.(pending := c.pending + 1);
        case Some("approved") => c := c.(approved := c.approved + 1);
        case Some("disapproved") => c := c.(disapproved := c.disapproved + 1);
        case _ =>
      }
      i := i + 1;
    }
    assert statuses[..i] == statuses;
  }

  /** Each document is counted at most once: the three counts never add up to more than the documents. */
  lemma {:induction false} CountsBounded(statuses: seq<Option<string>>)
    ensures CountStatus(statuses, "pending") + CountStatus(statuses, "approved") + CountStatus(statuses, "disapproved") <= |statuses|
  {
    if |statuses| > 0 {
      CountsBounded(statuses[..|statuses| - 1]);
    }
  }

  /** A document with any other status leaves every count as it was. */
  lemma OtherStatusesIgnored(statuses: seq<Option<string>>, other: Option<string>)
    requires other !in {Some("pending"), Some("approved"), Some("disapproved")}
    ensures CountStatus(statuses + [other], "pending") == CountStatus(statuses, "pending")
    ensures CountStatus(statuses + [other], "approved") == CountStatus(statuses, "approved")
    ensures CountStatus(statuses + [other], "disapproved") == CountStatus(statuses, "disapproved")
  {
    assert (statuses + [other])[..|statuses|] == statuses;
  }

  /**
   * The names `statusCounts[status]` also finds on `Object.prototype`. Incrementing one
   * of them stores `NaN` under that name, which the JSON reply shows as `null`
   * (`__proto__` is left out: assigning a number to it is ignored).
   */
  const InheritedNames: set<string> := ObjectPrototypeNames

  /** The keys of the analytics reply as written: the three counters plus every inherited name used as a status. */
  function AnalyticsKeysAsWritten(statuses: seq<Option<string>>): (keys: set<string>)
    ensures {"pending", "approved", "disapproved"} <= keys
    ensures forall k :: k in keys && k !in {"pending", "approved", "disapproved"} ==> k in InheritedNames && Some(k) in statuses
  {
    {"pending", "approved", "disapproved"} + set s | s in InheritedNames && Some(s) in statuses
  }

  /** A chat whose status is "toString" adds a `toString` key to the reply. */
  lemma InheritedStatusAddsKey()
    ensures "toString" in AnalyticsKeysAsWritten([Some("toString")])
    ensures AnalyticsKeysAsWritten([Some("toString")]) != {"pending", "approved", "disapproved"}
  {
    assert "toString" in InheritedNames;
  }
}
