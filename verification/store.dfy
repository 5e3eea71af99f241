/**
 * The Firestore state the routes touch, as abstract values: the `users` collection
 * (usage counters, tier, role) and the message sub-collections of chats. A message
 * sub-collection is a sequence in timestamp order; `add`/`set` of a new message
 * appends to it. `FieldValue.increment` is one atomic step on one field.
 */
module Store {
  import opened Common

  /** A document of the `users` collection; a field the document lacks is `None`. */
  datatype UserDoc = UserDoc(
    email: Option<string>,
    role: Option<string>,
    subscriptionTier: Option<string>,
    subscriptionPlan: Option<string>,
    subscriptionStatus: Option<string>,
    subscriptionId: Option<string>,
    tokenCount: Option<JsNumber>,
    imageGenerationCount: Option<int>)

  /** A document of a `messages` sub-collection (its server timestamp is its position). */
  datatype StoredMessage = StoredMessage(role: Field, content: Field, requestId: Option<string>, generation: Option<string>)

  function Plain(role: string, content: string): StoredMessage {
    StoredMessage(Str(role), Str(content), None, None)
  }

  /** A document of the `bots` collection. */
  datatype BotDoc = BotDoc(
    botName: Option<string>,
    systemContext: Option<string>,
    apiKey: Option<string>,
    ownerUserId: Option<string>,
    modelName: Option<string>,
    kwargs: Option<Kwargs>)

  /** A document of a query result: its id and its data. */
  datatype BotEntry = BotEntry(id: string, doc: BotDoc)

  /** Which `messages` sub-collection: a user's chat, a bot's chat, or a bot's own `messages`. */
  datatype Thread = UserChat(uid: string, chatId: string) | BotChat(botId: string, chatId: string) | BotInbox(botId: string)

  /** `FieldValue.increment(delta)` on a numeric field; a missing field is set to the operand. */
  function Increment(field: Option<JsNumber>, delta: JsNumber): JsNumber {
    match field
    case None => delta
    case Some(v) => v.Plus(delta)
  }

  /** The field after the increments `deltas`, applied one at a time in this order. */
  function IncrementAll(field: Option<JsNumber>, deltas: seq<JsNumber>): Option<JsNumber> {
    if |deltas| == 0 then field
    else Some(Increment(IncrementAll(field, deltas[..|deltas| - 1]), deltas[|deltas| - 1]))
  }

  predicate AllNumbers(deltas: seq<JsNumber>) {
    forall i :: 0 <= i < |deltas| ==> deltas[i].Num?
  }

  function SumOfNumbers(deltas: seq<JsNumber>): int {
    if |deltas| == 0 then 0
    else SumOfNumbers(deltas[..|deltas| - 1]) + (if deltas[|deltas| - 1].Num? then deltas[|deltas| - 1].n else 0)
  }

  lemma {:induction false} SumOfNumbersAppend(a: seq<JsNumber>, b: seq<JsNumber>)
    ensures SumOfNumbers(a + b) == SumOfNumbers(a) + SumOfNumbers(b)
    decreases |b|
  {
    if |b| > 0 {
      assert (a + b)[..|a + b| - 1] == a + b[..|b| - 1];
      SumOfNumbersAppend(a, b[..|b| - 1]);
    } else {
      assert a + b == a;
    }
  }

  /** Increments applied to a number give that number plus their sum, or NaN once any operand is NaN. */
  lemma {:induction false} IncrementAllClosedForm(x: int, deltas: seq<JsNumber>)
    ensures IncrementAll(Some(Num(x)), deltas) == Some(if AllNumbers(deltas) then Num(x + SumOfNumbers(deltas)) else NaN)
  {
    if |deltas| > 0 {
      var init := deltas[..|deltas| - 1];
      IncrementAllClosedForm(x, init);
      assert AllNumbers(deltas) ==> AllNumbers(init);
      assert AllNumbers(deltas) <==> AllNumbers(init) && deltas[|deltas| - 1].Num?;
    }
  }

  /** A missing counter behaves as 0 once it has been incremented at least once. */
  lemma {:induction false} MissingCounterStartsAtZero(deltas: seq<JsNumber>)
    requires |deltas| > 0
    ensures IncrementAll(None, deltas) == IncrementAll(Some(Num(0)), deltas)
  {
    if |deltas| > 1 {
      MissingCounterStartsAtZero(deltas[..|deltas| - 1]);
    } else {
      assert deltas[..0] == [];
      var d := deltas[0];
      assert d.Num? ==> Num(0).Plus(d) == d;
    }
  }

  /**
   * Two requests of one user whose increments interleave in either order leave the
   * same counter: no update is lost, whatever the order of the atomic increments.
   */
  lemma IncrementOrderIrrelevant(x: int, a: seq<JsNumber>, b: seq<JsNumber>)
    ensures IncrementAll(Some(Num(x)), a + b) == IncrementAll(Some(Num(x)), b + a)
    ensures AllNumbers(a + b) ==> IncrementAll(Some(Num(x)), a + b) == Some(Num(x + SumOfNumbers(a) + SumOfNumbers(b)))
  {
    IncrementAllClosedForm(x, a + b);
    IncrementAllClosedForm(x, b + a);
    SumOfNumbersAppend(a, b);
    SumOfNumbersAppend(b, a);
    assert AllNumbers(a + b) <==> AllNumbers(a) && AllNumbers(b) by {
      assert forall i :: 0 <= i < |a| ==> (a + b)[i] == a[i];
      assert forall i :: 0 <= i < |b| ==> (a + b)[|a| + i] == b[i];
    }
    assert AllNumbers(b + a) <==> AllNumbers(a) && AllNumbers(b) by {
      assert forall i :: 0 <= i < |b| ==> (b + a)[i] == b[i];
      assert forall i :: 0 <= i < |a| ==> (b + a)[|b| + i] == a[i];
    }
  }

  /** The `users` collection after `increment(delta)` of `tokenCount` on `uid`; a missing document is not created. */
  function WithTokens(users: map<string, UserDoc>, uid: string, delta: JsNumber): map<string, UserDoc> {
    if uid in users then users[uid := users[uid].(tokenCount := Some(Increment(users[uid].tokenCount, delta)))] else users
  }

  /** The `users` collection after `increment(1)` of `imageGenerationCount` on `uid`. */
  function WithImage(users: map<string, UserDoc>, uid: string): map<string, UserDoc> {
    if uid in users then users[uid := users[uid].(imageGenerationCount := Some(users[uid].imageGenerationCount.GetOr(0) + 1))] else users
  }

  class Store {
    var users: map<string, UserDoc>
    var threads: map<Thread, seq<StoredMessage>>

    constructor (users0: map<string, UserDoc>, threads0: map<Thread, seq<StoredMessage>>)
      ensures users == users0 && threads == threads0
    {
      users := users0;
      threads := threads0;
    }

    /** The messages of a sub-collection in timestamp order (`orderBy('timestamp')`). */
    function Messages(t: Thread): seq<StoredMessage>
      reads this
    {
      if t in threads then threads[t] else []
    }

    /** `messagesRef.add(m)` / `messagesRef.doc().set(m)`. */
    method Add(t: Thread, m: StoredMessage)
      modifies this
      ensures threads == old(threads)[t := old(Messages(t)) + [m]]
      ensures users == old(users)
    {
      threads := threads[t := Messages(t) + [m]];
    }

    /** Two `add`s in a row: `a`, then `b`. */
    method AddPair(t: Thread, a: StoredMessage, b: StoredMessage)
      modifies this
      ensures threads == old(threads)[t := old(Messages(t)) + [a, b]]
      ensures users == old(users)
    {
      Add(t, a);
      Add(t, b);
      assert old(Messages(t)) + [a] + [b] == old(Messages(t)) + [a, b];
    }

    /** A committed `batch` of message writes: all of them land in one step. */
    method AddBatch(t: Thread, ms: seq<StoredMessage>)
      modifies this
      ensures threads == old(threads)[t := old(Messages(t)) + ms]
      ensures users == old(users)
    {
      threads := threads[t := Messages(t) + ms];
    }

    /** `for (const m of ms) await messagesRef.add(m)`: one write per message, in order. */
    method AddEach(t: Thread, ms: seq<StoredMessage>)
      modifies this
      ensures |ms| > 0 ==> threads == old(threads)[t := old(Messages(t)) + ms]
      ensures |ms| == 0 ==> threads == old(threads)
      ensures users == old(users)
    {
      if |ms| == 0 {
        return;
      }
      var start := Messages(t);
      Add(t, ms[0]);
      assert ms[..1] == [ms[0]];
      var i := 1;
      while i < |ms|
        invariant 1 <= i <= |ms|
        invariant threads == old(threads)[t := start + ms[..i]]
        invariant users == old(users)
      {
        Add(t, ms[i]);
        assert start + ms[..i] + [ms[i]] == start + ms[..i + 1];
        i := i + 1;
      }
      assert ms[..i] == ms;
    }

    /** `userRef.update({ tokenCount: FieldValue.increment(delta) })`; fails on a missing document. */
    method IncrementTokens(uid: string, delta: JsNumber) returns (ok: bool)
      modifies this
      ensures ok == (uid in old(users))
      ensures users == WithTokens(old(users), uid, delta)
      ensures threads == old(threads)
    {
      ok := uid in users;
      users := WithTokens(users, uid, delta);
    }

    /** `userRef.update({ imageGenerationCount: FieldValue.increment(1) })`; fails on a missing document. */
    method IncrementImages(uid: string) returns (ok: bool)
      modifies this
      ensures ok == (uid in old(users))
      ensures users == WithImage(old(users), uid)
      ensures threads == old(threads)
    {
      ok := uid in users;
      users := WithImage(users, uid);
    }
  }
}
