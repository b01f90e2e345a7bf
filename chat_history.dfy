/** The chat-history dialog: grouping a user's time-ordered messages into conversation
    sessions, ordering the sessions newest first, pairing each user message with the
    assistant's reply, and the expand/collapse state of the list. */
module ChatHistory {
  import opened Common

  /** The largest gap, in milliseconds, that keeps two messages in one session (30 minutes). */
  const SessionGapMs: int := 30 * 60 * 1000

  /** Theme label of a session whose first message has no joined theme name. */
  const UnknownTheme: string := "不明なテーマ"

  datatype Role = User | Assistant

  /** A row of the `messages` table joined with its theme's name (`themes:theme_id(name)`).
      `createdAtText` is the row's `created_at` as the service returns it, and `createdAt`
      the instant it denotes, in milliseconds since the epoch (`new Date(created_at)`). */
  datatype Message = Message(
    id: string,
    createdAtText: string,
    createdAt: int,
    content: string,
    role: Role,
    themeId: string,
    themeName: Option<string>)

  /** The string key `${date}_${theme_id}_${timestamp}` of a session, kept as the triple it is
      built from; `timestamp` is the `created_at` text of the message that opened it. */
  datatype SessionKey = SessionKey(date: string, themeId: string, timestamp: string)

  /** A session of the history. `timestamp` is the `created_at` of its first message, kept as
      the instant it denotes, which is all the newest-first sort reads of it. */
  datatype ChatSession = ChatSession(
    date: string,
    theme: string,
    messages: seq<Message>,
    timestamp: int,
    sessionId: SessionKey)

  /** The accumulator of the grouping pass: a JavaScript object keyed by session key, whose
      keys enumerate in insertion order (`order`). */
  datatype Grouping = Grouping(order: seq<SessionKey>, table: map<SessionKey, ChatSession>)

  const EmptyGrouping: Grouping := Grouping([], map[])

  // ---------------------------------------------------------------------------------------
  // The grouping pass, one message at a time
  // ---------------------------------------------------------------------------------------

  /** `message.themes?.name || '不明なテーマ'` */
  function ThemeLabel(m: Message): string {
    OrElse(m.themeName, UnknownTheme)
  }

  /** Whether `m` opens a new session after `last`, the last message of the last session. */
  predicate ShouldStartNewSession(m: Message, last: Option<Message>) {
    || last.None?
    || m.themeId != last.value.themeId
    || m.createdAt - last.value.createdAt > SessionGapMs
  }

  /** The last message of the most recently inserted session (`Object.values(acc).pop()`). */
  function LastMessage(g: Grouping): (r: Option<Message>)
    ensures r.Some? ==> |g.order| > 0
  {
    if |g.order| > 0 && g.order[|g.order| - 1] in g.table
       && |g.table[g.order[|g.order| - 1]].messages| > 0
    then
      var msgs := g.table[g.order[|g.order| - 1]].messages;
      Some(msgs[|msgs| - 1])
    else None
  }

  /** The most recently inserted key (`Object.keys(acc).pop()`). */
  function LastKey(g: Grouping): SessionKey
    requires |g.order| > 0
  {
    g.order[|g.order| - 1]
  }

  lemma LastMessageOfValid(g: Grouping, dateOf: int -> string)
    requires Valid(g, dateOf)
    ensures |g.order| > 0 ==> LastKey(g) in g.table && |g.table[LastKey(g)].messages| > 0
    ensures LastMessage(g) == if |g.order| == 0 then None else
              var msgs := g.table[g.order[|g.order| - 1]].messages;
              Some(msgs[|msgs| - 1])
  {
    if |g.order| > 0 {
      assert LastKey(g) in g.order;
    }
  }

  /** The key a session opened by `m` gets. */
  function NewKey(m: Message, dateOf: int -> string): SessionKey {
    SessionKey(dateOf(m.createdAt), m.themeId, m.createdAtText)
  }

  /** The key of the session that `m` is pushed into. */
  function TargetKey(g: Grouping, m: Message, dateOf: int -> string): SessionKey {
    if ShouldStartNewSession(m, LastMessage(g)) then NewKey(m, dateOf) else LastKey(g)
  }

  function Appended(s: ChatSession, m: Message): ChatSession {
    s.(messages := s.messages + [m])
  }

  /** The session created for key `k` when `m` opens it, before `m` is pushed. */
  function Created(m: Message, k: SessionKey, dateOf: int -> string): ChatSession {
    ChatSession(dateOf(m.createdAt), ThemeLabel(m), [], m.createdAt, k)
  }

  /** The session opened by `m` under key `k`, once `m` is pushed into it. */
  function Opened(m: Message, k: SessionKey, dateOf: int -> string): ChatSession {
    ChatSession(dateOf(m.createdAt), ThemeLabel(m), [m], m.createdAt, k)
  }

  /** One call of the reducer: push `m` into the session under its target key, opening that
      session at the end of the insertion order when the key is absent. */
  function Step(g: Grouping, m: Message, dateOf: int -> string): Grouping {
    var k := TargetKey(g, m, dateOf);
    if k in g.table then Grouping(g.order, g.table[k := Appended(g.table[k], m)])
    else Grouping(g.order + [k], g.table[k := Opened(m, k, dateOf)])
  }

  /** Step is the reducer as written: create the session if the key is absent, then push
      the message into the session under the key. */
  lemma StepCreatesThenPushes(g: Grouping, m: Message, dateOf: int -> string)
    ensures var k := TargetKey(g, m, dateOf);
            var g1 := if k in g.table then g
                      else Grouping(g.order + [k], g.table[k := Created(m, k, dateOf)]);
            Step(g, m, dateOf) == Grouping(g1.order, g1.table[k := Appended(g1.table[k], m)])
  {
    var k := TargetKey(g, m, dateOf);
    assert Created(m, k, dateOf).messages + [m] == [m];
    assert Appended(Created(m, k, dateOf), m) == Opened(m, k, dateOf);
  }

  /** A session as the grouping pass leaves it: named by its key, non-empty, with its date,
      timestamp and theme label taken from its first message, and one theme throughout. */
  ghost predicate SessionFormed(k: SessionKey, s: ChatSession, dateOf: int -> string) {
    && |s.messages| > 0
    && s.sessionId == k
    && s.timestamp == s.messages[0].createdAt
    && s.date == k.date
    && k.timestamp == s.messages[0].createdAtText
    && k.date == dateOf(s.messages[0].createdAt)
    && s.theme == ThemeLabel(s.messages[0])
    && forall x :: x in s.messages ==> x.themeId == k.themeId
  }

  /** The invariant of the accumulator: keys are distinct, the insertion order lists exactly
      the keys present, and every session is well formed. */
  ghost predicate Valid(g: Grouping, dateOf: int -> string) {
    && (forall i, j :: 0 <= i < j < |g.order| ==> g.order[i] != g.order[j])
    && (forall k :: k in g.table <==> k in g.order)
    && (forall k :: k in g.table ==> SessionFormed(k, g.table[k], dateOf))
  }

  lemma StepValid(g: Grouping, m: Message, dateOf: int -> string)
    requires Valid(g, dateOf)
    ensures Valid(Step(g, m, dateOf), dateOf)
  {
    var k := TargetKey(g, m, dateOf);
    if k in g.table {
      JoinedThemeMatches(g, m, dateOf);
      var s := Appended(g.table[k], m);
      assert SessionFormed(k, s, dateOf) by {
        assert s.messages[0] == g.table[k].messages[0];
      }
      ValidUpdate(g, k, s, dateOf);
    } else {
      assert SessionFormed(k, Opened(m, k, dateOf), dateOf);
      ValidInsert(g, k, Opened(m, k, dateOf), dateOf);
    }
  }

  /** A message pushed into an existing session has that session's theme. */
  lemma JoinedThemeMatches(g: Grouping, m: Message, dateOf: int -> string)
    requires Valid(g, dateOf) && TargetKey(g, m, dateOf) in g.table
    ensures m.themeId == TargetKey(g, m, dateOf).themeId
  {
    if !ShouldStartNewSession(m, LastMessage(g)) {
      LastMessageOfValid(g, dateOf);
      var last := g.table[LastKey(g)];
      assert last.messages[|last.messages| - 1] in last.messages;
    }
  }

  lemma ValidUpdate(g: Grouping, k: SessionKey, s: ChatSession, dateOf: int -> string)
    requires Valid(g, dateOf) && k in g.table && SessionFormed(k, s, dateOf)
    ensures Valid(Grouping(g.order, g.table[k := s]), dateOf)
  {
  }

  lemma ValidInsert(g: Grouping, k: SessionKey, s: ChatSession, dateOf: int -> string)
    requires Valid(g, dateOf) && k !in g.table && SessionFormed(k, s, dateOf)
    ensures Valid(Grouping(g.order + [k], g.table[k := s]), dateOf)
  {
    var order := g.order + [k];
    forall i, j | 0 <= i < j < |order|
      ensures order[i] != order[j]
    {
      if j == |g.order| {
        assert order[i] in g.table;
      }
    }
  }

  /** The accumulator after the reducer has seen the first `n` messages of `ms`. */
  function GroupPrefix(ms: seq<Message>, n: nat, dateOf: int -> string): Grouping
    requires n <= |ms|
  {
    if n == 0 then EmptyGrouping else Step(GroupPrefix(ms, n - 1, dateOf), ms[n - 1], dateOf)
  }

  /** Before the first message: no sessions, nothing spelled. */
  lemma PrefixBase(ms: seq<Message>, dateOf: int -> string)
    ensures GroupPrefix(ms, 0, dateOf) == EmptyGrouping
    ensures Flatten(Sessions(EmptyGrouping)) == [] == ms[..0]
  {
    assert Sessions(EmptyGrouping) == [];
  }

  /** The accumulator stays well formed however many messages the reducer has seen. */
  lemma {:induction false} PrefixValid(ms: seq<Message>, n: nat, dateOf: int -> string)
    requires n <= |ms|
    ensures Valid(GroupPrefix(ms, n, dateOf), dateOf)
  {
    if n > 0 {
      PrefixValid(ms, n - 1, dateOf);
      StepValid(GroupPrefix(ms, n - 1, dateOf), ms[n - 1], dateOf);
    } else {
      PrefixBase(ms, dateOf);
    }
  }

  /** Induction over the reduction: a property of a grouping and the number of messages
      consumed that holds at the start and is kept by every step holds after every prefix. */
  lemma {:induction false} PrefixInduction(ms: seq<Message>, n: nat, dateOf: int -> string,
                                           P: (Grouping, nat) -> bool)
    requires n <= |ms|
    requires P(EmptyGrouping, 0)
    requires forall g, i {:trigger Step(g, ms[i], dateOf)} :: 0 <= i < |ms| && P(g, i) ==> P(Step(g, ms[i], dateOf), i + 1)
    ensures P(GroupPrefix(ms, n, dateOf), n)
  {
    if n > 0 {
      PrefixInduction(ms, n - 1, dateOf, P);
    }
  }

  /** The accumulator after reducing over all of `ms`. */
  function Group(ms: seq<Message>, dateOf: int -> string): Grouping {
    GroupPrefix(ms, |ms|, dateOf)
  }

  /** The values of `table` in the order of `order` (`Object.values`). */
  function SessionsOf(order: seq<SessionKey>, table: map<SessionKey, ChatSession>): seq<ChatSession> {
    if order == [] then []
    else
      var k := order[|order| - 1];
      SessionsOf(order[..|order| - 1], table) + (if k in table then [table[k]] else [])
  }

  /** When every listed key is present, the `i`-th value is the `i`-th key's session. */
  lemma {:induction false} SessionsOfListed(order: seq<SessionKey>, table: map<SessionKey, ChatSession>)
    requires forall k :: k in order ==> k in table
    ensures var r := SessionsOf(order, table);
            |r| == |order| && forall i :: 0 <= i < |order| ==> r[i] == table[order[i]]
  {
    if order != [] {
      var front := order[..|order| - 1];
      assert forall k :: k in front ==> k in order;
      SessionsOfListed(front, table);
      assert order[|order| - 1] in order;
    }
  }

  /** The sessions of the accumulator in insertion order. */
  function Sessions(g: Grouping): seq<ChatSession> {
    SessionsOf(g.order, g.table)
  }

  /** All messages of `ss`, session after session. */
  function Flatten(ss: seq<ChatSession>): seq<Message> {
    if ss == [] then [] else Flatten(ss[..|ss| - 1]) + ss[|ss| - 1].messages
  }

  // ---------------------------------------------------------------------------------------
  // How one step changes the list of sessions
  // ---------------------------------------------------------------------------------------

  /** A key not yet in the accumulator appends the session `m` opens at the end. */
  lemma StepSessionsNew(g: Grouping, m: Message, dateOf: int -> string)
    requires Valid(g, dateOf)
    requires TargetKey(g, m, dateOf) !in g.table
    ensures Sessions(Step(g, m, dateOf))
            == Sessions(g) + [Opened(m, TargetKey(g, m, dateOf), dateOf)]
  {
    var k := TargetKey(g, m, dateOf);
    SessionsOfInsert(g.order, g.table, k, Opened(m, k, dateOf));
  }

  lemma SessionsOfInsert(order: seq<SessionKey>, table: map<SessionKey, ChatSession>,
                         k: SessionKey, s: ChatSession)
    requires forall k' :: k' in order ==> k' in table
    requires k !in table
    ensures SessionsOf(order + [k], table[k := s]) == SessionsOf(order, table) + [s]
  {
    var r := SessionsOf(order + [k], table[k := s]);
    SessionsOfListed(order, table);
    SessionsOfListed(order + [k], table[k := s]);
    forall i | 0 <= i < |order|
      ensures r[i] == SessionsOf(order, table)[i]
    {
      assert order[i] in table;
    }
  }

  lemma StepSessionsExisting(g: Grouping, m: Message, dateOf: int -> string, j: int)
    requires Valid(g, dateOf)
    requires 0 <= j < |g.order| && g.order[j] == TargetKey(g, m, dateOf)
    ensures j < |Sessions(g)| && Sessions(Step(g, m, dateOf)) == Sessions(g)[j := Appended(Sessions(g)[j], m)]
  {
    SessionsOfListed(g.order, g.table);
    var k := TargetKey(g, m, dateOf);
    assert k in g.table;
    SessionsOfUpdate(g.order, g.table, j, Appended(g.table[k], m));
  }

  lemma SessionsOfUpdate(order: seq<SessionKey>, table: map<SessionKey, ChatSession>,
                         j: int, s: ChatSession)
    requires forall k :: k in order ==> k in table
    requires forall i, i' :: 0 <= i < i' < |order| ==> order[i] != order[i']
    requires 0 <= j < |order|
    ensures j < |SessionsOf(order, table)| && SessionsOf(order, table[order[j] := s]) == SessionsOf(order, table)[j := s]
  {
    SessionsOfListed(order, table);
    SessionsOfListed(order, table[order[j] := s]);
    var r := SessionsOf(order, table[order[j] := s]);
    var r0 := SessionsOf(order, table);
    forall i | 0 <= i < |order|
      ensures r[i] == r0[j := s][i]
    {
      if i != j {
        assert order[i] != order[j];
      }
    }
  }

  /** The position of a key in the insertion order. */
  function IndexOf(order: seq<SessionKey>, k: SessionKey): (j: nat)
    requires k in order
    ensures j < |order| && order[j] == k
  {
    if order[|order| - 1] == k then |order| - 1 else IndexOf(order[..|order| - 1], k)
  }

  // ---------------------------------------------------------------------------------------
  // Flattening
  // ---------------------------------------------------------------------------------------

  lemma {:induction false} FlattenConcat(a: seq<ChatSession>, b: seq<ChatSession>)
    ensures Flatten(a + b) == Flatten(a) + Flatten(b)
    decreases |b|
  {
    if b == [] {
      assert a + b == a;
    } else {
      var b', x := b[..|b| - 1], b[|b| - 1];
      var ab := a + b;
      assert ab[..|ab| - 1] == a + b' && ab[|ab| - 1] == x;
      FlattenConcat(a, b');
      assert Flatten(ab) == Flatten(a + b') + x.messages;
      assert Flatten(b) == Flatten(b') + x.messages;
    }
  }

  /** Pushing `m` into the `j`-th session adds exactly `m` to the flattened messages. */
  lemma FlattenAppendAt(ss: seq<ChatSession>, j: int, m: Message)
    requires 0 <= j < |ss|
    ensures multiset(Flatten(ss[j := Appended(ss[j], m)])) == multiset(Flatten(ss)) + multiset{m}
  {
    var pre, post, v := ss[..j], ss[j + 1..], Appended(ss[j], m);
    assert ss == pre + [ss[j]] + post;
    assert ss[j := v] == pre + [v] + post;
    FlattenAround(pre, ss[j], post);
    FlattenAround(pre, v, post);
  }

  /** The flattened messages around one session. */
  lemma FlattenAround(pre: seq<ChatSession>, x: ChatSession, post: seq<ChatSession>)
    ensures Flatten(pre + [x] + post) == Flatten(pre) + x.messages + Flatten(post)
  {
    FlattenConcat(pre + [x], post);
    FlattenConcat(pre, [x]);
    FlattenSingleton(x);
  }

  lemma FlattenAppendLast(ss: seq<ChatSession>, m: Message)
    requires |ss| > 0
    ensures Flatten(ss[|ss| - 1 := Appended(ss[|ss| - 1], m)]) == Flatten(ss) + [m]
  {
    var n := |ss|;
    assert ss[n - 1 := Appended(ss[n - 1], m)][..n - 1] == ss[..n - 1];
  }

  lemma {:induction false} FlattenPermutation(a: seq<ChatSession>, b: seq<ChatSession>)
    requires multiset(a) == multiset(b)
    ensures multiset(Flatten(a)) == multiset(Flatten(b))
    decreases |a|
  {
    if a == [] {
      assert |b| == |multiset(b)| == 0;
    } else {
      var x := a[|a| - 1];
      var a' := a[..|a| - 1];
      assert a == a' + [x];
      assert multiset(a') == multiset(a) - multiset{x};
      assert x in multiset(b);
      var i :| 0 <= i < |b| && b[i] == x;
      var rest := b[..i] + b[i + 1..];
      FlattenRemove(b, i);
      FlattenPermutation(a', rest);
      assert Flatten(a) == Flatten(a') + x.messages;
    }
  }

  lemma SplitAt(s: seq<ChatSession>, i: int)
    requires 0 <= i < |s|
    ensures s == s[..i] + [s[i]] + s[i + 1..]
  {
  }

  /** Taking the `i`-th session out of `b` takes its messages out of the flattened list. */
  lemma FlattenRemove(b: seq<ChatSession>, i: int)
    requires 0 <= i < |b|
    ensures multiset(b[..i] + b[i + 1..]) == multiset(b) - multiset{b[i]}
    ensures multiset(Flatten(b)) == multiset(Flatten(b[..i] + b[i + 1..])) + multiset(b[i].messages)
  {
    var x, lo, hi := b[i], b[..i], b[i + 1..];
    SplitAt(b, i);
    assert multiset(b) == multiset(lo) + multiset{x} + multiset(hi);
    FlattenConcat(lo + [x], hi);
    FlattenConcat(lo, [x]);
    FlattenConcat(lo, hi);
    FlattenSingleton(x);
    assert Flatten(b) == Flatten(lo) + x.messages + Flatten(hi);
  }

  lemma FlattenSingleton(x: ChatSession)
    ensures Flatten([x]) == x.messages
  {
    assert [x][..0] == [];
  }

  // ---------------------------------------------------------------------------------------
  // Properties of the grouping pass
  // ---------------------------------------------------------------------------------------

  /** The first `n + 1` messages are the first `n` and then message `n`. */
  lemma TakeOneMore(ms: seq<Message>, n: nat)
    requires n < |ms|
    ensures ms[..n + 1] == ms[..n] + [ms[n]]
  {
  }

  /** Every message seen so far is pushed into exactly one session: none is lost or
      duplicated. */
  lemma {:induction false} PrefixKeepsEveryMessage(ms: seq<Message>, n: nat, dateOf: int -> string)
    requires n <= |ms|
    ensures multiset(Flatten(Sessions(GroupPrefix(ms, n, dateOf)))) == multiset(ms[..n])
  {
    var P := (g: Grouping, i: nat) =>
      i <= |ms| && Valid(g, dateOf) && multiset(Flatten(Sessions(g))) == multiset(ms[..i]);
    PrefixBase(ms, dateOf);
    assert Valid(EmptyGrouping, dateOf);
    assert P(EmptyGrouping, 0);
    forall g, i | 0 <= i < |ms| && P(g, i)
      ensures P(Step(g, ms[i], dateOf), i + 1)
    {
      TakeOneMore(ms, i);
      StepValid(g, ms[i], dateOf);
      StepKeepsInput(g, ms[i], ms[..i], dateOf);
    }
    PrefixInduction(ms, n, dateOf, P);
  }

  lemma GroupKeepsEveryMessage(ms: seq<Message>, dateOf: int -> string)
    ensures multiset(Flatten(Sessions(Group(ms, dateOf)))) == multiset(ms)
  {
    PrefixKeepsEveryMessage(ms, |ms|, dateOf);
    assert ms[..|ms|] == ms;
  }

  /** The step of PrefixKeepsEveryMessage: `p` is the input so far. */
  lemma StepKeepsInput(g: Grouping, m: Message, p: seq<Message>, dateOf: int -> string)
    requires Valid(g, dateOf) && multiset(Flatten(Sessions(g))) == multiset(p)
    ensures multiset(Flatten(Sessions(Step(g, m, dateOf)))) == multiset(p + [m])
  {
    StepKeepsEveryMessage(g, m, dateOf);
    assert multiset(p + [m]) == multiset(p) + multiset{m};
  }

  /** One step adds exactly the new message to the flattened sessions. */
  lemma StepKeepsEveryMessage(g: Grouping, m: Message, dateOf: int -> string)
    requires Valid(g, dateOf)
    ensures multiset(Flatten(Sessions(Step(g, m, dateOf))))
            == multiset(Flatten(Sessions(g))) + multiset{m}
  {
    var k := TargetKey(g, m, dateOf);
    if k in g.table {
      var j := IndexOf(g.order, k);
      StepSessionsExisting(g, m, dateOf, j);
      FlattenAppendAt(Sessions(g), j, m);
    } else {
      StepSessionsNew(g, m, dateOf);
      FlattenConcat(Sessions(g), [Opened(m, k, dateOf)]);
      FlattenSingleton(Opened(m, k, dateOf));
    }
  }
  /** `m` is pushed into an existing session other than the most recent one. This happens
      only when the key `m` would open already names an earlier session. */
  predicate Displaced(g: Grouping, m: Message, dateOf: int -> string) {
    var k := TargetKey(g, m, dateOf);
    k in g.table && !(|g.order| > 0 && k == LastKey(g))
  }
  /** The decision to open a new session lands on a key that already exists. */
  predicate Collides(g: Grouping, m: Message, dateOf: int -> string) {
    ShouldStartNewSession(m, LastMessage(g)) && NewKey(m, dateOf) in g.table
  }
  /** No message among the first `n` of `ms` is displaced while reducing over them. */
  ghost predicate NoDisplacementUpTo(ms: seq<Message>, n: nat, dateOf: int -> string)
    requires n <= |ms|
  {
    n == 0 || (NoDisplacementUpTo(ms, n - 1, dateOf) && !Displaced(GroupPrefix(ms, n - 1, dateOf), ms[n - 1], dateOf))
  }

  /** No session key collides while reducing over the first `n` messages of `ms`. */
  ghost predicate NoCollisionUpTo(ms: seq<Message>, n: nat, dateOf: int -> string)
    requires n <= |ms|
  {
    n == 0 || (NoCollisionUpTo(ms, n - 1, dateOf) && !Collides(GroupPrefix(ms, n - 1, dateOf), ms[n - 1], dateOf))
  }

  /** No session key collides while reducing over `ms`. */
  ghost predicate NoCollision(ms: seq<Message>, dateOf: int -> string) {
    NoCollisionUpTo(ms, |ms|, dateOf)
  }

  /** Where a message that is not displaced goes: into the most recent session or into a
      new session appended at the end. */
  lemma StepNotDisplaced(g: Grouping, m: Message, dateOf: int -> string)
    requires Valid(g, dateOf) && !Displaced(g, m, dateOf)
    ensures Flatten(Sessions(Step(g, m, dateOf))) == Flatten(Sessions(g)) + [m]
  {
    var k := TargetKey(g, m, dateOf);
    if k in g.table {
      SessionsOfListed(g.order, g.table);
      StepSessionsExisting(g, m, dateOf, |g.order| - 1);
      FlattenAppendLast(Sessions(g), m);
    } else {
      StepSessionsNew(g, m, dateOf);
      FlattenConcat(Sessions(g), [Opened(m, k, dateOf)]);
      FlattenSingleton(Opened(m, k, dateOf));
    }
  }
  /** After a message that is not displaced, it is the last message of the last session. */
  lemma StepNotDisplacedLast(g: Grouping, m: Message, dateOf: int -> string)
    requires !Displaced(g, m, dateOf)
    ensures LastMessage(Step(g, m, dateOf)) == Some(m)
  {
    var k := TargetKey(g, m, dateOf);
    var g' := Step(g, m, dateOf);
    assert LastKey(g') == k by {
      if k in g.table {
        assert g'.order == g.order;
      } else {
        assert g'.order == g.order + [k];
      }
    }
    assert g'.table[k].messages[|g'.table[k].messages| - 1] == m;
  }
  /** A displaced message leaves the last message of the flattened history unchanged, and
      that message is not the displaced one. */
  lemma StepDisplaced(g: Grouping, m: Message, dateOf: int -> string)
    requires Valid(g, dateOf) && Displaced(g, m, dateOf)
    ensures var f := Flatten(Sessions(Step(g, m, dateOf)));
            |f| > 0 && f[|f| - 1] != m
  {
    var k := TargetKey(g, m, dateOf);
    DisplacedAfterLast(g, m, dateOf);
    assert k in g.order;
    var j := IndexOf(g.order, k);
    assert j != |g.order| - 1;
    StepSessionsExisting(g, m, dateOf, j);
    var ss := Sessions(g);
    SessionsOfListed(g.order, g.table);
    assert |ss| == |g.order| && ss[|ss| - 1] == g.table[LastKey(g)];
    FlattenUpdateBeforeLast(ss, j, Appended(ss[j], m));
    assert Sessions(Step(g, m, dateOf)) == ss[j := Appended(ss[j], m)];
  }
  /** Updating a session other than the last leaves the last flattened message alone. */
  lemma FlattenUpdateBeforeLast(ss: seq<ChatSession>, j: int, v: ChatSession)
    requires 0 <= j < |ss| - 1 && |ss[|ss| - 1].messages| > 0
    ensures var f, last := Flatten(ss[j := v]), ss[|ss| - 1].messages;
            |f| > 0 && f[|f| - 1] == last[|last| - 1]
  {
    var ss' := ss[j := v];
    assert ss'[|ss| - 1] == ss[|ss| - 1];
    FlattenEndsWith(ss');
  }
  lemma FlattenEndsWith(ss: seq<ChatSession>)
    requires |ss| > 0 && |ss[|ss| - 1].messages| > 0
    ensures var f, last := Flatten(ss), ss[|ss| - 1].messages;
            |f| > 0 && f[|f| - 1] == last[|last| - 1]
  {
  }
  /** A displaced message differs from the last message of the most recent session. */
  lemma DisplacedAfterLast(g: Grouping, m: Message, dateOf: int -> string)
    requires Valid(g, dateOf) && Displaced(g, m, dateOf)
    ensures LastKey(g) in g.table
    ensures var last := g.table[LastKey(g)];
            |last.messages| > 0 && last.messages[|last.messages| - 1] != m
  {
    assert ShouldStartNewSession(m, LastMessage(g));
    LastMessageOfValid(g, dateOf);
  }
  /** Concatenating the sessions in insertion order reproduces the messages seen so far
      exactly when none of them was displaced into an earlier session. */
  lemma PrefixOrderIffNoDisplacement(ms: seq<Message>, n: nat, dateOf: int -> string)
    requires n <= |ms|
    ensures Flatten(Sessions(GroupPrefix(ms, n, dateOf))) == ms[..n] <==> NoDisplacementUpTo(ms, n, dateOf)
  {
    if NoDisplacementUpTo(ms, n, dateOf) {
      UndisplacedKeepsOrder(ms, n, dateOf);
    } else {
      DisplacementBreaksOrder(ms, n, dateOf);
    }
  }

  lemma {:induction false} UndisplacedKeepsOrder(ms: seq<Message>, n: nat, dateOf: int -> string)
    requires n <= |ms| && NoDisplacementUpTo(ms, n, dateOf)
    ensures Flatten(Sessions(GroupPrefix(ms, n, dateOf))) == ms[..n]
  {
    if n > 0 {
      UndisplacedKeepsOrder(ms, n - 1, dateOf);
      OrderStepAt(ms, n, dateOf);
    } else {
      OrderBase(ms, dateOf);
    }
  }

  lemma {:induction false} DisplacementBreaksOrder(ms: seq<Message>, n: nat, dateOf: int -> string)
    requires n <= |ms| && !NoDisplacementUpTo(ms, n, dateOf)
    ensures Flatten(Sessions(GroupPrefix(ms, n, dateOf))) != ms[..n]
  {
    OrderStepAt(ms, n, dateOf);
    if !NoDisplacementUpTo(ms, n - 1, dateOf) {
      DisplacementBreaksOrder(ms, n - 1, dateOf);
    }
  }

  /** The base case of PrefixOrderIffNoDisplacement. */
  lemma OrderBase(ms: seq<Message>, dateOf: int -> string)
    ensures Flatten(Sessions(GroupPrefix(ms, 0, dateOf))) == ms[..0]
  {
    assert ms[..0] == [] && Sessions(EmptyGrouping) == [] && Flatten([]) == [];
  }

  /** The step of PrefixOrderIffNoDisplacement for the `n`-th message. */
  lemma OrderStepAt(ms: seq<Message>, n: nat, dateOf: int -> string)
    requires 0 < n <= |ms|
    ensures var g := GroupPrefix(ms, n - 1, dateOf);
            Flatten(Sessions(GroupPrefix(ms, n, dateOf))) == ms[..n]
            <==> Flatten(Sessions(g)) == ms[..n - 1] && !Displaced(g, ms[n - 1], dateOf)
  {
    PrefixValid(ms, n - 1, dateOf);
    StepOrderAt(ms, n, GroupPrefix(ms, n - 1, dateOf), dateOf);
  }

  /** StepOrderIff for the `n`-th message of `ms` and the input before it. */
  lemma StepOrderAt(ms: seq<Message>, n: nat, g: Grouping, dateOf: int -> string)
    requires 0 < n <= |ms| && Valid(g, dateOf)
    ensures Flatten(Sessions(Step(g, ms[n - 1], dateOf))) == ms[..n]
            <==> Flatten(Sessions(g)) == ms[..n - 1] && !Displaced(g, ms[n - 1], dateOf)
  {
    assert ms[..n] == ms[..n - 1] + [ms[n - 1]];
    StepOrderIff(g, ms[n - 1], ms[..n - 1], dateOf);
  }



  /** The step of PrefixOrderIffNoDisplacement: after one step the sessions spell `p + [m]`
      exactly when they spelled `p` before and `m` was not displaced. */
  lemma StepOrderIff(g: Grouping, m: Message, p: seq<Message>, dateOf: int -> string)
    requires Valid(g, dateOf)
    ensures Flatten(Sessions(Step(g, m, dateOf))) == p + [m]
            <==> Flatten(Sessions(g)) == p && !Displaced(g, m, dateOf)
  {
    var f := Flatten(Sessions(g));
    if Displaced(g, m, dateOf) {
      StepDisplaced(g, m, dateOf);
    } else {
      StepNotDisplaced(g, m, dateOf);
      if f + [m] == p + [m] {
        assert f == (f + [m])[..|f|];
      }
    }
  }

  /** Concatenating the sessions in insertion order reproduces the input exactly when no
      message is displaced into an earlier session. */
  lemma OrderPreservedIffNoDisplacement(ms: seq<Message>, dateOf: int -> string)
    ensures Flatten(Sessions(Group(ms, dateOf))) == ms <==> NoDisplacementUpTo(ms, |ms|, dateOf)
  {
    PrefixOrderIffNoDisplacement(ms, |ms|, dateOf);
    assert ms[..|ms|] == ms;
  }

  /** A step without a key collision displaces nothing. */
  lemma CollisionFreeNotDisplaced(g: Grouping, m: Message, dateOf: int -> string)
    requires !Collides(g, m, dateOf)
    ensures !Displaced(g, m, dateOf)
  {
  }
  /** When no session key collides, the sessions in insertion order are the input in order. */
  lemma InsertionOrderPreserved(ms: seq<Message>, dateOf: int -> string)
    requires NoCollision(ms, dateOf)
    ensures Flatten(Sessions(Group(ms, dateOf))) == ms
  {
    PrefixNoCollisionNoDisplacement(ms, |ms|, dateOf);
    OrderPreservedIffNoDisplacement(ms, dateOf);
  }

  lemma {:induction false} PrefixNoCollisionNoDisplacement(ms: seq<Message>, n: nat, dateOf: int -> string)
    requires n <= |ms| && NoCollisionUpTo(ms, n, dateOf)
    ensures NoDisplacementUpTo(ms, n, dateOf)
  {
    if n > 0 {
      PrefixNoCollisionNoDisplacement(ms, n - 1, dateOf);
      CollisionFreeNotDisplaced(GroupPrefix(ms, n - 1, dateOf), ms[n - 1], dateOf);
    }
  }

  /** Theme A, then another theme, then theme A again with the same `created_at` as the
      first message. */
  predicate ReturnsWithSameCreatedAt(a: Message, b: Message, c: Message) {
    && a.createdAtText == c.createdAtText && a.createdAt == c.createdAt
    && a.themeId == c.themeId && a.themeId != b.themeId
  }
  /** Keys can collide: a message that returns to an earlier theme with the `created_at` of
      the message that opened that theme's session is pushed back into that session, so
      concatenating the sessions no longer follows the input. */
  lemma CollisionReorders(ms: seq<Message>, dateOf: int -> string)
    requires |ms| == 3 && ReturnsWithSameCreatedAt(ms[0], ms[1], ms[2])
    ensures var ss := Sessions(Group(ms, dateOf));
            |ss| == 2 && Flatten(ss) == [ms[0], ms[2], ms[1]]
  {
    var a, b, c := ms[0], ms[1], ms[2];
    var ka, kb := NewKey(a, dateOf), NewKey(b, dateOf);
    ExampleStep1(a, dateOf);
    assert GroupPrefix(ms, 1, dateOf) == Grouping([ka], map[ka := Opened(a, ka, dateOf)]);
    ExampleStep2(a, b, c, dateOf);
    assert GroupPrefix(ms, 2, dateOf)
           == Grouping([ka, kb], map[ka := Opened(a, ka, dateOf), kb := Opened(b, kb, dateOf)]);
    ExampleStep3(a, b, c, dateOf);
    ExampleFlatten(a, b, c, dateOf);
  }

  lemma ExampleFlatten(a: Message, b: Message, c: Message, dateOf: int -> string)
    ensures var ka, kb := NewKey(a, dateOf), NewKey(b, dateOf);
            var ss := Sessions(Grouping([ka, kb], map[ka := Appended(Opened(a, ka, dateOf), c),
                                                      kb := Opened(b, kb, dateOf)]));
            ka != kb ==> |ss| == 2 && Flatten(ss) == [a, c, b]
  {
    var ka, kb := NewKey(a, dateOf), NewKey(b, dateOf);
    if ka != kb {
      var sc, sb := Appended(Opened(a, ka, dateOf), c), Opened(b, kb, dateOf);
      SessionsOfListed([ka, kb], map[ka := sc, kb := sb]);
      assert Sessions(Grouping([ka, kb], map[ka := sc, kb := sb])) == [sc, sb];
      FlattenConcat([sc], [sb]);
      FlattenSingleton(sc);
      FlattenSingleton(sb);
    }
  }
  lemma ExampleStep1(a: Message, dateOf: int -> string)
    ensures var ka := NewKey(a, dateOf);
            Step(EmptyGrouping, a, dateOf) == Grouping([ka], map[ka := Opened(a, ka, dateOf)])
  {
  }
  lemma ExampleStep2(a: Message, b: Message, c: Message, dateOf: int -> string)
    requires ReturnsWithSameCreatedAt(a, b, c)
    ensures var ka, kb := NewKey(a, dateOf), NewKey(b, dateOf);
            Step(Grouping([ka], map[ka := Opened(a, ka, dateOf)]), b, dateOf)
            == Grouping([ka, kb], map[ka := Opened(a, ka, dateOf), kb := Opened(b, kb, dateOf)])
  {
    var ka, kb := NewKey(a, dateOf), NewKey(b, dateOf);
    var g1 := Grouping([ka], map[ka := Opened(a, ka, dateOf)]);
    assert LastMessage(g1) == Some(a);
    assert TargetKey(g1, b, dateOf) == kb != ka;
  }
  lemma ExampleStep3(a: Message, b: Message, c: Message, dateOf: int -> string)
    requires ReturnsWithSameCreatedAt(a, b, c)
    ensures var ka, kb := NewKey(a, dateOf), NewKey(b, dateOf);
            && ka != kb
            && Step(Grouping([ka, kb], map[ka := Opened(a, ka, dateOf), kb := Opened(b, kb, dateOf)]), c, dateOf)
               == Grouping([ka, kb], map[ka := Appended(Opened(a, ka, dateOf), c), kb := Opened(b, kb, dateOf)])
  {
    var ka, kb := NewKey(a, dateOf), NewKey(b, dateOf);
    var g2 := Grouping([ka, kb], map[ka := Opened(a, ka, dateOf), kb := Opened(b, kb, dateOf)]);
    assert ka != kb;
    assert LastMessage(g2) == Some(b);
    assert TargetKey(g2, c, dateOf) == ka;
  }
  /** Once the previous message was not displaced, message `n` is compared with message
      `n - 1`, so it is due to start a new session exactly when the theme changes or more
      than 30 minutes have passed. Whether a session is then opened depends on its key being
      fresh (LongGapOpensSession). */
  lemma SessionBoundary(ms: seq<Message>, n: nat, dateOf: int -> string)
    requires 0 < n < |ms|
    requires !Displaced(GroupPrefix(ms, n - 1, dateOf), ms[n - 1], dateOf)
    ensures ShouldStartNewSession(ms[n], LastMessage(GroupPrefix(ms, n, dateOf)))
            <==> (ms[n].themeId != ms[n - 1].themeId || ms[n].createdAt - ms[n - 1].createdAt > SessionGapMs)
  {
    var g := GroupPrefix(ms, n - 1, dateOf);
    StepNotDisplacedLast(g, ms[n - 1], dateOf);
    assert GroupPrefix(ms, n, dateOf) == Step(g, ms[n - 1], dateOf);
    assert LastMessage(GroupPrefix(ms, n, dateOf)) == Some(ms[n - 1]);
  }

  /** A same-theme message exactly 30 minutes after the previous one joins the current last
      session. */
  lemma ExactlyThirtyMinutesJoins(ms: seq<Message>, n: nat, dateOf: int -> string)
    requires 0 < n < |ms|
    requires !Displaced(GroupPrefix(ms, n - 1, dateOf), ms[n - 1], dateOf)
    requires ms[n].themeId == ms[n - 1].themeId
    requires ms[n].createdAt == ms[n - 1].createdAt + SessionGapMs
    ensures var ss := Sessions(GroupPrefix(ms, n, dateOf));
            |ss| > 0 && Sessions(GroupPrefix(ms, n + 1, dateOf)) == ss[|ss| - 1 := Appended(ss[|ss| - 1], ms[n])]
  {
    SessionBoundary(ms, n, dateOf);
    PrefixValid(ms, n, dateOf);
    StepJoinsLast(GroupPrefix(ms, n, dateOf), ms[n], dateOf);
  }

  /** A message that does not open a new session is appended to the last session. */
  lemma StepJoinsLast(g: Grouping, m: Message, dateOf: int -> string)
    requires Valid(g, dateOf) && !ShouldStartNewSession(m, LastMessage(g))
    ensures var ss := Sessions(g);
            |ss| > 0 && Sessions(Step(g, m, dateOf)) == ss[|ss| - 1 := Appended(ss[|ss| - 1], m)]
  {
    assert |g.order| > 0 && TargetKey(g, m, dateOf) == LastKey(g);
    SessionsOfListed(g.order, g.table);
    StepSessionsExisting(g, m, dateOf, |g.order| - 1);
  }
  /** A message more than 30 minutes after the previous one opens a new session at the end,
      provided its key is fresh. */
  lemma LongGapOpensSession(ms: seq<Message>, n: nat, dateOf: int -> string)
    requires 0 < n < |ms|
    requires !Displaced(GroupPrefix(ms, n - 1, dateOf), ms[n - 1], dateOf)
    requires ms[n].createdAt - ms[n - 1].createdAt > SessionGapMs
    requires NewKey(ms[n], dateOf) !in GroupPrefix(ms, n, dateOf).table
    ensures Sessions(GroupPrefix(ms, n + 1, dateOf))
            == Sessions(GroupPrefix(ms, n, dateOf)) + [Opened(ms[n], NewKey(ms[n], dateOf), dateOf)]
  {
    SessionBoundary(ms, n, dateOf);
    PrefixValid(ms, n, dateOf);
    StepSessionsNew(GroupPrefix(ms, n, dateOf), ms[n], dateOf);
  }

  // ---------------------------------------------------------------------------------------
  // Gaps inside a session
  // ---------------------------------------------------------------------------------------

  /** The time from the `i`-th message of `s` to the next one. */
  function GapAfter(s: seq<Message>, i: int): int
    requires 0 <= i < |s| - 1
  {
    s[i + 1].createdAt - s[i].createdAt
  }
  /** Consecutive messages are at most 30 minutes apart. */
  ghost predicate GapsAtMost(s: seq<Message>) {
    forall i :: 0 <= i < |s| - 1 ==> GapAfter(s, i) <= SessionGapMs
  }
  /** Consecutive messages are in time order and at most 30 minutes apart. */
  ghost predicate ShortGaps(s: seq<Message>) {
    forall i :: 0 <= i < |s| - 1 ==> 0 <= GapAfter(s, i) <= SessionGapMs
  }
  /** The order the messages query returns: ascending `created_at`. */
  ghost predicate TimeOrdered(s: seq<Message>) {
    forall i, j :: 0 <= i < j < |s| ==> s[i].createdAt <= s[j].createdAt
  }
  lemma GapsAtMostAppend(xs: seq<Message>, m: Message)
    requires GapsAtMost(xs) && |xs| > 0
    requires m.createdAt - xs[|xs| - 1].createdAt <= SessionGapMs
    ensures GapsAtMost(xs + [m])
  {
    var ys := xs + [m];
    forall i | 0 <= i < |ys| - 1
      ensures GapAfter(ys, i) <= SessionGapMs
    {
      if i < |xs| - 1 {
        assert GapAfter(ys, i) == GapAfter(xs, i);
      }
    }
  }
  lemma ShortGapsAppend(xs: seq<Message>, m: Message)
    requires ShortGaps(xs) && |xs| > 0
    requires 0 <= m.createdAt - xs[|xs| - 1].createdAt <= SessionGapMs
    ensures ShortGaps(xs + [m])
  {
    var ys := xs + [m];
    forall i | 0 <= i < |ys| - 1
      ensures 0 <= GapAfter(ys, i) <= SessionGapMs
    {
      if i < |xs| - 1 {
        assert GapAfter(ys, i) == GapAfter(xs, i);
      }
    }
  }
  /** Every session of `g` has gaps of at most 30 minutes. */
  ghost predicate AllGapsAtMost(g: Grouping) {
    forall k :: k in g.table ==> GapsAtMost(g.table[k].messages)
  }

  /** When no session key collides, consecutive messages of a session are at most 30
      minutes apart. */
  lemma {:induction false} PrefixGapsAtMost(ms: seq<Message>, n: nat, dateOf: int -> string)
    requires n <= |ms| && NoCollisionUpTo(ms, n, dateOf)
    ensures AllGapsAtMost(GroupPrefix(ms, n, dateOf))
  {
    if n > 0 {
      PrefixGapsAtMost(ms, n - 1, dateOf);
      var g, m := GroupPrefix(ms, n - 1, dateOf), ms[n - 1];
      assert GroupPrefix(ms, n, dateOf) == Step(g, m, dateOf);
      PrefixValid(ms, n - 1, dateOf);
      StepGapsAtMost(g, m, dateOf);
    } else {
      PrefixBase(ms, dateOf);
    }
  }

  lemma StepGapsAtMost(g: Grouping, m: Message, dateOf: int -> string)
    requires Valid(g, dateOf) && !Collides(g, m, dateOf) && AllGapsAtMost(g)
    ensures AllGapsAtMost(Step(g, m, dateOf))
  {
    var k := TargetKey(g, m, dateOf);
    var g' := Step(g, m, dateOf);
    forall k' | k' in g'.table
      ensures GapsAtMost(g'.table[k'].messages)
    {
      if k' != k {
        assert g'.table[k'] == g.table[k'];
      } else if k in g.table {
        AppendWithinGap(g, m, dateOf);
      } else {
        assert g'.table[k].messages == [m];
      }
    }
  }

  lemma NoCollisionBoundsGaps(ms: seq<Message>, dateOf: int -> string)
    requires NoCollision(ms, dateOf)
    ensures var g := Group(ms, dateOf);
            forall k :: k in g.table ==> GapsAtMost(g.table[k].messages)
  {
    PrefixGapsAtMost(ms, |ms|, dateOf);
  }

  /** The step of NoCollisionBoundsGaps for a message pushed into an existing session. */
  lemma AppendWithinGap(g: Grouping, m: Message, dateOf: int -> string)
    requires Valid(g, dateOf) && !Collides(g, m, dateOf)
    requires TargetKey(g, m, dateOf) in g.table
    requires forall k :: k in g.table ==> GapsAtMost(g.table[k].messages)
    ensures GapsAtMost(g.table[TargetKey(g, m, dateOf)].messages + [m])
  {
    assert !ShouldStartNewSession(m, LastMessage(g));
    var xs := g.table[TargetKey(g, m, dateOf)].messages;
    GapsAtMostAppend(xs, m);
  }
  /** Equal `created_at` texts denote one instant: `new Date` is a function of its text. */
  ghost predicate StampsAgree(ms: seq<Message>) {
    forall i, j :: 0 <= i < |ms| && 0 <= j < |ms| && ms[i].createdAtText == ms[j].createdAtText
                   ==> ms[i].createdAt == ms[j].createdAt
  }
  /** `idx` lists, in increasing order, positions of `ms` that spell `s`. */
  ghost predicate Embeds(idx: seq<int>, s: seq<Message>, ms: seq<Message>) {
    && |idx| == |s|
    && (forall i :: 0 <= i < |idx| ==> 0 <= idx[i] < |ms| && ms[idx[i]] == s[i])
    && (forall i, j :: 0 <= i < j < |idx| ==> idx[i] < idx[j])
  }
  /** `s` is `ms` with some elements left out, the rest in their order. */
  ghost predicate IsSubsequence(s: seq<Message>, ms: seq<Message>) {
    exists idx :: Embeds(idx, s, ms)
  }
  /** A session of a time-ordered input: its messages are a subsequence of `ms`, none is
      older than the session's timestamp `t`, and consecutive ones are in time order at most
      30 minutes apart. */
  ghost predicate RunsForward(t: int, s: seq<Message>, ms: seq<Message>) {
    && ShortGaps(s)
    && IsSubsequence(s, ms)
    && forall x :: x in s ==> x in ms && t <= x.createdAt
  }
  ghost predicate AllRunForward(g: Grouping, ms: seq<Message>) {
    forall k :: k in g.table ==> RunsForward(g.table[k].timestamp, g.table[k].messages, ms)
  }
  lemma RunsForwardExtend(t: int, s: seq<Message>, p: seq<Message>, m: Message)
    requires RunsForward(t, s, p)
    ensures RunsForward(t, s, p + [m])
  {
    var idx :| Embeds(idx, s, p);
    assert Embeds(idx, s, p + [m]);
  }
  /** Pushing the next input message onto a subsequence of the input so far. */
  lemma SubsequencePush(s: seq<Message>, p: seq<Message>, m: Message)
    requires IsSubsequence(s, p)
    ensures IsSubsequence(s + [m], p + [m])
  {
    var idx :| Embeds(idx, s, p);
    assert Embeds(idx + [|p|], s + [m], p + [m]);
  }
  lemma {:induction false} PrefixRunsForward(ms: seq<Message>, n: nat, dateOf: int -> string)
    requires n <= |ms| && TimeOrdered(ms) && StampsAgree(ms)
    ensures AllRunForward(GroupPrefix(ms, n, dateOf), ms[..n])
  {
    if n > 0 {
      PrefixRunsForward(ms, n - 1, dateOf);
      PrefixValid(ms, n - 1, dateOf);
      StepRunsForward(ms, n, GroupPrefix(ms, n - 1, dateOf), dateOf);
    } else {
      PrefixBase(ms, dateOf);
    }
  }

  /** The step of PrefixRunsForward: the `n`-th message joins the groups of the first
      `n - 1`. */
  lemma StepRunsForward(ms: seq<Message>, n: nat, g: Grouping, dateOf: int -> string)
    requires 0 < n <= |ms| && TimeOrdered(ms) && StampsAgree(ms)
    requires Valid(g, dateOf) && AllRunForward(g, ms[..n - 1])
    ensures AllRunForward(Step(g, ms[n - 1], dateOf), ms[..n])
  {
    var m := ms[n - 1];
    var k := TargetKey(g, m, dateOf);
    var g' := Step(g, m, dateOf);
    assert ms[..n] == ms[..n - 1] + [m];
    forall k' | k' in g'.table
      ensures RunsForward(g'.table[k'].timestamp, g'.table[k'].messages, ms[..n])
    {
      if k' != k {
        var s := g.table[k'];
        assert g'.table[k'] == s;
        assert RunsForward(s.timestamp, s.messages, ms[..n - 1]);
        RunsForwardExtend(s.timestamp, s.messages, ms[..n - 1], m);
      } else {
        TargetRunsForward(ms, n, g, dateOf);
      }
    }
  }

  /** The step of PrefixRunsForward for the session the `n`-th message goes into. */
  lemma TargetRunsForward(ms: seq<Message>, n: nat, g: Grouping, dateOf: int -> string)
    requires 0 < n <= |ms| && TimeOrdered(ms) && StampsAgree(ms)
    requires Valid(g, dateOf) && AllRunForward(g, ms[..n - 1])
    ensures var s := Step(g, ms[n - 1], dateOf).table[TargetKey(g, ms[n - 1], dateOf)];
            RunsForward(s.timestamp, s.messages, ms[..n])
  {
    assert ms[..n] == ms[..n - 1] + [ms[n - 1]];
    if TargetKey(g, ms[n - 1], dateOf) in g.table {
      AppendInTimeOrder(ms, n - 1, g, dateOf);
    } else {
      assert Embeds([n - 1], [ms[n - 1]], ms[..n]);
    }
  }

  /** The step of PrefixRunsForward for a message pushed into an existing session. */
  lemma AppendInTimeOrder(ms: seq<Message>, n: nat, g: Grouping, dateOf: int -> string)
    requires n < |ms| && TimeOrdered(ms) && StampsAgree(ms)
    requires Valid(g, dateOf) && AllRunForward(g, ms[..n])
    requires TargetKey(g, ms[n], dateOf) in g.table
    ensures var s := g.table[TargetKey(g, ms[n], dateOf)];
            RunsForward(s.timestamp, s.messages + [ms[n]], ms[..n] + [ms[n]])
  {
    var m := ms[n];
    var s := g.table[TargetKey(g, m, dateOf)];
    AppendGapInRange(ms, n, g, dateOf);
    ShortGapsAppend(s.messages, m);
    SubsequencePush(s.messages, ms[..n], m);
  }

  /** The gap AppendInTimeOrder closes: the message pushed is at most 30 minutes, and not
      less than nothing, after the last message of its session. */
  lemma AppendGapInRange(ms: seq<Message>, n: nat, g: Grouping, dateOf: int -> string)
    requires n < |ms| && TimeOrdered(ms) && StampsAgree(ms)
    requires Valid(g, dateOf) && AllRunForward(g, ms[..n])
    requires TargetKey(g, ms[n], dateOf) in g.table
    ensures var xs := g.table[TargetKey(g, ms[n], dateOf)].messages;
            |xs| > 0 && 0 <= ms[n].createdAt - xs[|xs| - 1].createdAt <= SessionGapMs
  {
    var m := ms[n];
    var k := TargetKey(g, m, dateOf);
    var s := g.table[k];
    var xs := s.messages;
    assert RunsForward(s.timestamp, xs, ms[..n]);
    EarlierInTimeOrder(ms, n, xs[|xs| - 1]);
    TargetGap(g, m, dateOf);
    if k.timestamp == m.createdAtText {
      SameCreatedAtSameInstant(ms, n, xs[0]);
    }
  }

  /** A message seen before the `n`-th with the same `created_at` is at the same instant. */
  lemma SameCreatedAtSameInstant(ms: seq<Message>, n: nat, y: Message)
    requires n < |ms| && StampsAgree(ms) && y in ms[..n] && y.createdAtText == ms[n].createdAtText
    ensures y.createdAt == ms[n].createdAt
  {
    var iy :| 0 <= iy < n && ms[..n][iy] == y;
    assert ms[iy] == y;
  }

  /** In a time-ordered input, a message seen before the `n`-th is not newer than it. */
  lemma EarlierInTimeOrder(ms: seq<Message>, n: nat, y: Message)
    requires n < |ms| && TimeOrdered(ms) && y in ms[..n]
    ensures y.createdAt <= ms[n].createdAt
  {
    var iy :| 0 <= iy < n && ms[..n][iy] == y;
    assert ms[iy] == y;
  }

  /** The session `m` is pushed into: either it was opened by a message with `m`'s
      `created_at` (a key collision), or its last message is at most 30 minutes older than
      `m`. */
  lemma TargetGap(g: Grouping, m: Message, dateOf: int -> string)
    requires Valid(g, dateOf) && TargetKey(g, m, dateOf) in g.table
    ensures var k := TargetKey(g, m, dateOf);
            var xs := g.table[k].messages;
            |xs| > 0 &&
            (k.timestamp == m.createdAtText || m.createdAt - xs[|xs| - 1].createdAt <= SessionGapMs)
  {
    if !ShouldStartNewSession(m, LastMessage(g)) {
      LastMessageOfValid(g, dateOf);
    }
  }

  /** On time-ordered input every session runs forward in time with gaps of at most 30
      minutes, whether or not keys collide. */
  lemma TimeOrderedBoundsGaps(ms: seq<Message>, dateOf: int -> string)
    requires TimeOrdered(ms) && StampsAgree(ms)
    ensures var g := Group(ms, dateOf);
            forall k :: k in g.table ==> ShortGaps(g.table[k].messages)
  {
    PrefixRunsForward(ms, |ms|, dateOf);
  }

  // ---------------------------------------------------------------------------------------
  // Newest first: `sort((a, b) => b.timestamp - a.timestamp)`
  // ---------------------------------------------------------------------------------------

  ghost predicate NewestFirst(ss: seq<ChatSession>) {
    forall i, j :: 0 <= i < j < |ss| ==> ss[i].timestamp >= ss[j].timestamp
  }

  /** The sessions of `ss` that share timestamp `t`, in their order in `ss`. */
  function WithTimestamp(ss: seq<ChatSession>, t: int): seq<ChatSession> {
    if ss == [] then []
    else (if ss[0].timestamp == t then [ss[0]] else []) + WithTimestamp(ss[1..], t)
  }

  /** Insert `x` before the first session that is not newer than it. */
  function InsertNewestFirst(x: ChatSession, r: seq<ChatSession>): seq<ChatSession> {
    if r == [] || r[0].timestamp <= x.timestamp then [x] + r
    else [r[0]] + InsertNewestFirst(x, r[1..])
  }

  lemma {:induction false} InsertKeepsElements(x: ChatSession, r: seq<ChatSession>)
    ensures multiset(InsertNewestFirst(x, r)) == multiset(r) + multiset{x}
  {
    if r == [] || r[0].timestamp <= x.timestamp {
      assert multiset([x] + r) == multiset{x} + multiset(r);
    } else {
      var rest := InsertNewestFirst(x, r[1..]);
      InsertKeepsElements(x, r[1..]);
      assert r == [r[0]] + r[1..];
      assert multiset(r) == multiset{r[0]} + multiset(r[1..]);
      assert multiset([r[0]] + rest) == multiset{r[0]} + multiset(rest);
    }
  }

  lemma {:induction false} InsertKeepsOrder(x: ChatSession, r: seq<ChatSession>)
    requires NewestFirst(r)
    ensures NewestFirst(InsertNewestFirst(x, r))
  {
    if r == [] || r[0].timestamp <= x.timestamp {
      var ins := [x] + r;
      forall i, j | 0 <= i < j < |ins|
        ensures ins[i].timestamp >= ins[j].timestamp
      {
        if i > 0 {
          assert ins[i] == r[i - 1] && ins[j] == r[j - 1];
        }
      }
    } else {
      var rest := InsertNewestFirst(x, r[1..]);
      var ins := [r[0]] + rest;
      InsertKeepsOrder(x, r[1..]);
      assert AtMost(r[1..], r[0].timestamp) by {
        assert forall i :: 0 <= i < |r| - 1 ==> r[1..][i] == r[i + 1];
      }
      assert NewestFirst(r[1..]) by {
        assert forall i :: 0 <= i < |r| - 1 ==> r[1..][i] == r[i + 1];
      }
      InsertAtMost(x, r[1..], r[0].timestamp);
      forall i, j | 0 <= i < j < |ins|
        ensures ins[i].timestamp >= ins[j].timestamp
      {
        assert ins[j] == rest[j - 1];
        if i > 0 {
          assert ins[i] == rest[i - 1];
        }
      }
    }
  }

  /** No session of `s` is newer than `t`. */
  ghost predicate AtMost(s: seq<ChatSession>, t: int) {
    forall i :: 0 <= i < |s| ==> s[i].timestamp <= t
  }

  lemma {:induction false} InsertAtMost(x: ChatSession, r: seq<ChatSession>, t: int)
    requires AtMost(r, t) && x.timestamp <= t
    ensures AtMost(InsertNewestFirst(x, r), t)
  {
    if r == [] || r[0].timestamp <= x.timestamp {
      assert forall i :: 1 <= i < 1 + |r| ==> ([x] + r)[i] == r[i - 1];
    } else {
      var rest := InsertNewestFirst(x, r[1..]);
      assert AtMost(r[1..], t) by {
        assert forall i :: 0 <= i < |r| - 1 ==> r[1..][i] == r[i + 1];
      }
      InsertAtMost(x, r[1..], t);
      assert forall i :: 1 <= i < 1 + |rest| ==> ([r[0]] + rest)[i] == rest[i - 1];
    }
  }

  lemma {:induction false} InsertIsStable(x: ChatSession, r: seq<ChatSession>, t: int)
    ensures WithTimestamp(InsertNewestFirst(x, r), t)
            == (if x.timestamp == t then [x] else []) + WithTimestamp(r, t)
  {
    var hx := if x.timestamp == t then [x] else [];
    if r == [] || r[0].timestamp <= x.timestamp {
      var ins := [x] + r;
      assert ins[0] == x && ins[1..] == r;
      assert WithTimestamp(ins, t) == hx + WithTimestamp(ins[1..], t);
    } else {
      var rest := InsertNewestFirst(x, r[1..]);
      var ins := [r[0]] + rest;
      InsertIsStable(x, r[1..], t);
      assert ins[0] == r[0] && ins[1..] == rest;
      var h0 := if r[0].timestamp == t then [r[0]] else [];
      assert WithTimestamp(ins, t) == h0 + WithTimestamp(rest, t);
      assert WithTimestamp(r, t) == h0 + WithTimestamp(r[1..], t);
      assert hx == [] || h0 == [];
      assert h0 + (hx + WithTimestamp(r[1..], t)) == hx + (h0 + WithTimestamp(r[1..], t));
    }
  }

  /** A stable sort of the sessions into newest-first order. */
  function SortNewestFirst(ss: seq<ChatSession>): (r: seq<ChatSession>)
    ensures NewestFirst(r)
    ensures multiset(r) == multiset(ss)
    ensures forall t :: WithTimestamp(r, t) == WithTimestamp(ss, t)
  {
    if ss == [] then []
    else
      var rest := SortNewestFirst(ss[1..]);
      assert ss == [ss[0]] + ss[1..];
      InsertKeepsElements(ss[0], rest);
      InsertKeepsOrder(ss[0], rest);
      assert forall t :: WithTimestamp(InsertNewestFirst(ss[0], rest), t) == WithTimestamp(ss, t) by {
        forall t ensures WithTimestamp(InsertNewestFirst(ss[0], rest), t) == WithTimestamp(ss, t) {
          InsertIsStable(ss[0], rest, t);
        }
      }
      InsertNewestFirst(ss[0], rest)
  }

  // ---------------------------------------------------------------------------------------
  // Building the history (the reducer, written as the loop it runs), and the dialog state
  // ---------------------------------------------------------------------------------------

  /** The history the dialog shows: the sessions of `ms`, newest first. */
  function History(ms: seq<Message>, dateOf: int -> string): seq<ChatSession> {
    SortNewestFirst(Sessions(Group(ms, dateOf)))
  }

  /** The history is ordered newest first and holds every fetched message exactly once. */
  lemma HistoryKeepsEveryMessage(ms: seq<Message>, dateOf: int -> string)
    ensures NewestFirst(History(ms, dateOf))
    ensures multiset(Flatten(History(ms, dateOf))) == multiset(ms)
  {
    GroupKeepsEveryMessage(ms, dateOf);
    FlattenPermutation(History(ms, dateOf), Sessions(Group(ms, dateOf)));
  }

  /** The reducer's callback: find the last message of the most recent session, choose the
      session key, create the session if the key is new, and push the message into it. */
  method AddMessage(order: seq<SessionKey>, table: map<SessionKey, ChatSession>, message: Message,
                    dateOf: int -> string)
    returns (order': seq<SessionKey>, table': map<SessionKey, ChatSession>)
    requires LastSessionNonEmpty(Grouping(order, table))
    ensures Grouping(order', table') == Step(Grouping(order, table), message, dateOf)
  {
    ghost var g := Grouping(order, table);
    var date := dateOf(message.createdAt);
    var timestamp := message.createdAtText;
    var lastMessage: Option<Message> := None;
    if |order| > 0 {
      var lastSession := table[order[|order| - 1]];
      lastMessage := Some(lastSession.messages[|lastSession.messages| - 1]);
    }
    var sessionKey;
    if ShouldStartNewSession(message, lastMessage) {
      sessionKey := SessionKey(date, message.themeId, timestamp);
    } else {
      sessionKey := order[|order| - 1];
    }
    assert sessionKey == TargetKey(g, message, dateOf);
    order', table' := order, table;
    if sessionKey !in table' {
      table' := table'[sessionKey := ChatSession(date, ThemeLabel(message), [], message.createdAt, sessionKey)];
      order' := order' + [sessionKey];
    }
    table' := table'[sessionKey := table'[sessionKey].(messages := table'[sessionKey].messages + [message])];
    StepCreatesThenPushes(g, message, dateOf);
  }

  /** What the reducer's callback relies on when it reads the last message of the most
      recent session. */
  predicate LastSessionNonEmpty(g: Grouping) {
    |g.order| > 0 ==> g.order[|g.order| - 1] in g.table && |g.table[g.order[|g.order| - 1]].messages| > 0
  }

  lemma PrefixLastSessionNonEmpty(ms: seq<Message>, n: nat, dateOf: int -> string)
    requires n <= |ms|
    ensures LastSessionNonEmpty(GroupPrefix(ms, n, dateOf))
  {
    PrefixValid(ms, n, dateOf);
    LastMessageOfValid(GroupPrefix(ms, n, dateOf), dateOf);
  }

  /** The grouping `reduce`: run the callback over the messages in order. */
  method GroupMessages(messages: seq<Message>, dateOf: int -> string)
    returns (order: seq<SessionKey>, table: map<SessionKey, ChatSession>)
    ensures Grouping(order, table) == Group(messages, dateOf)
  {
    order, table := [], map[];
    var i := 0;
    while i < |messages|
      invariant 0 <= i <= |messages|
      invariant Grouping(order, table) == GroupPrefix(messages, i, dateOf)
    {
      PrefixLastSessionNonEmpty(messages, i, dateOf);
      order, table := AddMessage(order, table, messages[i], dateOf);
      i := i + 1;
    }
  }

  /** Group the messages into sessions and order the sessions newest first. */
  method BuildHistory(messages: seq<Message>, dateOf: int -> string) returns (history: seq<ChatSession>)
    ensures history == History(messages, dateOf)
  {
    var order, table := GroupMessages(messages, dateOf);
    history := SortNewestFirst(SessionsOf(order, table));
  }

  /** The state of the chat-history dialog. */
  class ChatHistoryDialog {
    var loading: bool
    var chatHistory: seq<ChatSession>
    var expandedSessions: map<string, bool>
    var expandedMessages: map<string, bool>

    constructor ()
      ensures loading && chatHistory == [] && expandedSessions == map[] && expandedMessages == map[]
    {
      loading := true;
      chatHistory := [];
      expandedSessions := map[];
      expandedMessages := map[];
    }

    /** `loadChatHistory`: nothing happens without a signed-in user; a failed query empties
        the history; either way loading ends. `fetched` stands for the query's outcome. */
    method LoadChatHistory(signedIn: bool, fetched: Result<seq<Message>, string>, dateOf: int -> string)
      modifies this
      ensures !signedIn ==> unchanged(this)
      ensures signedIn ==> !loading
      ensures signedIn && fetched.Err? ==> chatHistory == []
      ensures signedIn && fetched.Ok? ==>
                chatHistory == History(fetched.value, dateOf)
      ensures expandedSessions == old(expandedSessions) && expandedMessages == old(expandedMessages)
    {
      if !signedIn {
        return;
      }
      loading := true;
      if fetched.Ok? {
        chatHistory := BuildHistory(fetched.value, dateOf);
      } else {
        chatHistory := [];
      }
      loading := false;
    }

    method HandleToggleExpand(sessionKey: string)
      modifies this
      ensures expandedSessions == ToggleKey(old(expandedSessions), sessionKey)
      ensures loading == old(loading) && chatHistory == old(chatHistory)
      ensures expandedMessages == old(expandedMessages)
    {
      expandedSessions := ToggleKey(expandedSessions, sessionKey);
    }

    method HandleToggleMessages(messageKey: string)
      modifies this
      ensures expandedMessages == ToggleKey(old(expandedMessages), messageKey)
      ensures loading == old(loading) && chatHistory == old(chatHistory)
      ensures expandedSessions == old(expandedSessions)
    {
      expandedMessages := ToggleKey(expandedMessages, messageKey);
    }
  }

  // ---------------------------------------------------------------------------------------
  // Expand toggles: `{ ...prev, [key]: !prev[key] }`
  // ---------------------------------------------------------------------------------------

  /** A key that was never toggled reads as `undefined`, which is falsy. */
  predicate IsExpanded(m: map<string, bool>, k: string) {
    k in m && m[k]
  }

  function ToggleKey(m: map<string, bool>, k: string): (r: map<string, bool>)
    ensures IsExpanded(r, k) == !IsExpanded(m, k)
    ensures r.Keys == m.Keys + {k}
    ensures forall j :: j in m && j != k ==> r[j] == m[j]
  {
    m[k := !IsExpanded(m, k)]
  }

  /** Toggling twice reads the same as not toggling at all, for every key. */
  lemma ToggleTwice(m: map<string, bool>, k: string)
    ensures forall j :: IsExpanded(ToggleKey(ToggleKey(m, k), k), j) == IsExpanded(m, j)
  {
  }

  // ---------------------------------------------------------------------------------------
  // Pairing each user message with the assistant's reply
  // ---------------------------------------------------------------------------------------

  datatype MessagePair = MessagePair(user: Message, ai: Option<Message>)

  /** `m.role === 'assistant' && m.created_at > userMsg.created_at` */
  predicate IsReplyTo(m: Message, u: Message) {
    m.role == Assistant && m.createdAt > u.createdAt
  }

  /** `messages.find(...)`: the first reply to `u` in `msgs`. */
  function FindReply(msgs: seq<Message>, u: Message): (r: Option<Message>)
    ensures r.None? <==> forall i :: 0 <= i < |msgs| ==> !IsReplyTo(msgs[i], u)
    ensures r.Some? ==> exists j :: 0 <= j < |msgs| && msgs[j] == r.value && IsReplyTo(msgs[j], u)
                                    && forall i :: 0 <= i < j ==> !IsReplyTo(msgs[i], u)
  {
    if msgs == [] then None
    else if IsReplyTo(msgs[0], u) then Some(msgs[0])
    else
      var r := FindReply(msgs[1..], u);
      assert forall i :: 1 <= i < |msgs| ==> msgs[i] == msgs[1..][i - 1];
      r
  }

  /** `messages.filter(m => m.role === 'user')` */
  function UserMessages(msgs: seq<Message>): (r: seq<Message>)
    ensures forall x :: x in r <==> x in msgs && x.role == User
    ensures |r| <= |msgs|
    ensures msgs == [] ==> r == []
    ensures |msgs| == 1 ==> r == (if msgs[0].role == User then msgs else [])
  {
    if msgs == [] then []
    else
      assert forall x :: x in msgs ==> x == msgs[0] || x in msgs[1..];
      (if msgs[0].role == User then [msgs[0]] else []) + UserMessages(msgs[1..])
  }

  /** The filter splits over concatenation. With the empty and one-message cases of
      UserMessages' contract this determines it completely: every user message is kept, as
      often as it occurs and in its order, and nothing else. */
  lemma {:induction false} UserMessagesConcat(a: seq<Message>, b: seq<Message>)
    ensures UserMessages(a + b) == UserMessages(a) + UserMessages(b)
  {
    if a == [] {
      assert a + b == b;
    } else {
      assert (a + b)[0] == a[0];
      assert (a + b)[1..] == a[1..] + b;
      UserMessagesConcat(a[1..], b);
    }
  }

  /** One pair per user message of the session, in order, each with its reply if any. */
  function Pairs(msgs: seq<Message>): (r: seq<MessagePair>)
    ensures |r| == |UserMessages(msgs)|
    ensures forall i :: 0 <= i < |r| ==> r[i].user == UserMessages(msgs)[i] && r[i].user.role == User
    ensures forall i :: 0 <= i < |r| ==>
              (r[i].ai.None? <==> forall j :: 0 <= j < |msgs| ==> !IsReplyTo(msgs[j], r[i].user))
    ensures forall i :: 0 <= i < |r| && r[i].ai.Some? ==>
              exists j :: 0 <= j < |msgs| && msgs[j] == r[i].ai.value && IsReplyTo(msgs[j], r[i].user)
                          && forall l :: 0 <= l < j ==> !IsReplyTo(msgs[l], r[i].user)
  {
    var users := UserMessages(msgs);
    assert forall i :: 0 <= i < |users| ==> users[i] in users;
    seq(|users|, i requires 0 <= i < |users| => MessagePair(users[i], FindReply(msgs, users[i])))
  }

  /** The control under the first pair: absent for at most one pair; otherwise "collapse"
      when expanded, or "show the other N messages" with N the number of hidden pairs. */
  datatype MoreButton = NoButton | CollapseButton | ShowMore(hidden: nat)

  function MoreMessagesButton(pairCount: nat, expanded: bool): (b: MoreButton)
    ensures b.NoButton? <==> pairCount <= 1
    ensures b.CollapseButton? <==> pairCount > 1 && expanded
    ensures b.ShowMore? ==> !expanded && b.hidden == pairCount - 1 && b.hidden >= 1
  {
    if pairCount <= 1 then NoButton
    else if expanded then CollapseButton
    else ShowMore(pairCount - 1)
  }

  /** The control a session gets, in terms of its messages: it is absent exactly when the
      session has at most one user message, and otherwise offers the user messages after
      the first. */
  lemma SessionMoreButton(msgs: seq<Message>, expanded: bool)
    ensures var b := MoreMessagesButton(|Pairs(msgs)|, expanded);
            && (b.NoButton? <==> |UserMessages(msgs)| <= 1)
            && (b.CollapseButton? <==> |UserMessages(msgs)| > 1 && expanded)
            && (b.ShowMore? ==> b.hidden == |UserMessages(msgs)| - 1)
  {
  }
}
