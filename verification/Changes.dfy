/** How two states may differ: one new row, one changed row, a stamp of the moment, new notices. */
module Changes {
  import opened Rows
  import opened MarketSpec
  import opened Counting

  // ---------------------------------------------------------------- rows

  /** The table has a row more, under the new key `k`, and no other difference. */
  ghost predicate OnlyNew<T>(before: Table<T>, after: Table<T>, k: Id) {
    k !in before.rows && k in after.rows && after.rows == before.rows[k := after.rows[k]]
  }

  /** No row but that of `k` differs, and there is none more or less. */
  ghost predicate OnlyAt<T>(before: Table<T>, after: Table<T>, k: Id) {
    && k in before.rows && k in after.rows && after.next == before.next
    && after.rows == before.rows[k := after.rows[k]]
  }

  predicate Within(x: Time, t: Ticks) {
    t.t0 <= x <= t.t3
  }

  /** Set while the request is served. */
  predicate Stamped(x: Option<Time>, t: Ticks) {
    x.Some? && Within(x.value, t)
  }

  // ---------------------------------------------------------------- notices

  type Box = Table<NotificationRow>

  datatype Message = Message(to: UserId, kind: NotificationKind)

  predicate NewIn(before: Box, after: Box, n: Id) {
    n in after.rows && n !in before.rows
  }

  /** A notice about `offer` that has just been queued and awaits the worker. */
  predicate Queued(n: NotificationRow, offer: Id, t: Ticks) {
    && n.relatedOffer == Some(offer) && n.status.Pending? && n.retryCount == 0 && n.sentAt.None? && n.readAt.None?
    && Within(n.createdAt, t)
  }

  predicate Carries(before: Box, after: Box, n: Id, m: Message) {
    NewIn(before, after, n) && after.rows[n].user == m.to && after.rows[n].kind == m.kind
  }

  predicate CarriedOnce(before: Box, after: Box, a: Id, b: Id) {
    (&& NewIn(before, after, a) && NewIn(before, after, b)
     && after.rows[a].user == after.rows[b].user && after.rows[a].kind == after.rows[b].kind) ==> a == b
  }

  predicate NoticeOk(users: map<UserId, UserRow>, before: Box, after: Box, offer: Id, t: Ticks, ms: set<Message>,
                     n: Id)
  {
    NewIn(before, after, n) ==>
      && Queued(after.rows[n], offer, t) && AlarmOn(users, after.rows[n].user)
      && Message(after.rows[n].user, after.rows[n].kind) in ms
  }

  /** Of the messages `ms`, exactly those to users who want notices are queued, each once; nothing else changes. */
  ghost predicate Queues(users: map<UserId, UserRow>, before: Box, after: Box, offer: Id, t: Ticks, ms: set<Message>) {
    && (forall n :: n in before.rows ==> n in after.rows && after.rows[n] == before.rows[n])
    && (forall n :: NoticeOk(users, before, after, offer, t, ms, n))
    && (forall m :: m in ms && AlarmOn(users, m.to) ==> exists n :: Carries(before, after, n, m))
    && (forall a, b :: CarriedOnce(before, after, a, b))
  }

  /** The same switches, so the same users are told. */
  ghost predicate SameAlarms(users: map<UserId, UserRow>, users': map<UserId, UserRow>) {
    forall u :: AlarmOn(users, u) <==> AlarmOn(users', u)
  }

  lemma NothingQueued(users: map<UserId, UserRow>, box: Box, offer: Id, t: Ticks)
    ensures Queues(users, box, box, offer, t, {})
  {
  }

  lemma QueuesOneMore(users: map<UserId, UserRow>, users': map<UserId, UserRow>, a: Box, b: Box, offer: Id, t: Ticks,
                      ms: set<Message>, m: Message, at: Time)
    requires Queues(users, a, b, offer, t, ms) && m !in ms && b.Bounded() && Within(at, t)
    requires SameAlarms(users, users')
    ensures var c := Notify(users', b, m.to, m.kind, offer, at);
            Queues(users, a, c, offer, t, ms + {m}) && c.Bounded()
  {
    var c := Notify(users', b, m.to, m.kind, offer, at);
    assert AlarmOn(users, m.to) <==> AlarmOn(users', m.to);
    assert b.next !in b.rows;
    forall n | n in a.rows ensures n in c.rows && c.rows[n] == a.rows[n] {
      assert n in b.rows && n != b.next;
    }
    forall n ensures NoticeOk(users, a, c, offer, t, ms + {m}, n) {
      assert NoticeOk(users, a, b, offer, t, ms, n);
    }
    forall x | x in ms + {m} && AlarmOn(users, x.to) ensures exists n :: Carries(a, c, n, x) {
      if x == m {
        assert Carries(a, c, b.next, m);
      } else {
        var n :| Carries(a, b, n, x);
        assert Carries(a, c, n, x);
      }
    }
    forall i, j ensures CarriedOnce(a, c, i, j) {
      assert CarriedOnce(a, b, i, j);
      assert NoticeOk(users, a, b, offer, t, ms, i) && NoticeOk(users, a, b, offer, t, ms, j);
    }
  }

  ghost function Messages(us: set<UserId>, kind: NotificationKind): set<Message> {
    set u | u in us :: Message(u, kind)
  }

  lemma {:induction false} QueuesAll(users: map<UserId, UserRow>, users': map<UserId, UserRow>, a: Box, b: Box,
                                     offer: Id, t: Ticks, ms: set<Message>, us: seq<UserId>, kind: NotificationKind,
                                     at: Time)
    requires Queues(users, a, b, offer, t, ms) && b.Bounded() && Within(at, t) && SameAlarms(users, users')
    requires forall i, j :: 0 <= i < j < |us| ==> us[i] != us[j]
    requires forall u :: u in us ==> Message(u, kind) !in ms
    ensures var c := NotifyAll(users', b, us, kind, offer, at);
            Queues(users, a, c, offer, t, ms + Messages(SeqSet(us), kind)) && c.Bounded()
  {
    if us == [] {
      assert ms + Messages(SeqSet(us), kind) == ms;
    } else {
      var init, last := us[..|us| - 1], us[|us| - 1];
      QueuesAll(users, users', a, b, offer, t, ms, init, kind, at);
      var told := ms + Messages(SeqSet(init), kind);
      assert us == init + [last] && last !in init;
      QueuesOneMore(users, users', a, NotifyAll(users', b, init, kind, offer, at), offer, t, told,
                    Message(last, kind), at);
      assert told + {Message(last, kind)} == ms + Messages(SeqSet(us), kind);
    }
  }
}
