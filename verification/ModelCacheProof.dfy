/** Every interleaving of appends, builds and reports keeps the cache honest. */
module ModelCacheProof {
  import opened Basics
  import opened SessionStore
  import opened ModelCache

  lemma ChatOfSnoc(messages: seq<Message>, message: Message)
    ensures ChatOf(messages + [message]) == ChatOf(messages) + if message.kind == Chat then [message] else []
  {
    assert (messages + [message])[..|messages|] == messages;
  }

  /** The chat only grows, so what reflected a part of it still does. */
  lemma ReflectsLater(model: Model, chat: seq<Message>, later: seq<Message>, n: nat, seeded: bool)
    requires chat <= later && Reflects(model, chat, n, seeded)
    ensures Reflects(model, later, n, seeded)
  {
    assert later[..n] == chat[..n];
  }

  lemma GoalLater(goal: Goal, chat: seq<Message>, later: seq<Message>, n: nat, count: nat, seeded: bool)
    requires chat <= later && GoalSound(goal, chat, n, count, seeded)
    ensures GoalSound(goal, later, n, count, seeded)
  {
    hide Reflects;
    if goal.Serve? { ReflectsLater(goal.own, chat, later, n, seeded); }
    if goal.ReportCached? { ReflectsLater(goal.cached, chat, later, goal.cachedCount, seeded); }
  }

  lemma ResultLater(result: Result, chat: seq<Message>, later: seq<Message>, n: nat, seeded: bool)
    requires chat <= later && ResultSound(result, chat, n, seeded)
    ensures ResultSound(result, later, n, seeded)
  {
    hide Reflects;
    if result.Served? { ReflectsLater(result.model, chat, later, n, seeded); }
    if result.Reported? && result.shown.Some? {
      if result.status == Stale {
        var c: nat :| c <= |chat| && c != n && Reflects(result.shown.value, chat, c, seeded);
        ReflectsLater(result.shown.value, chat, later, c, seeded);
      } else {
        ReflectsLater(result.shown.value, chat, later, n, seeded);
      }
    }
  }

  lemma RequestLater(r: Request, chat: seq<Message>, later: seq<Message>, seeded: bool)
    requires chat <= later && RequestSound(r, chat, seeded)
    ensures RequestSound(r, later, seeded)
  {
    hide Reflects, GoalSound, ResultSound;
    var n := |r.chat|;
    match r.step
    case Begin =>
    case ReadOwn =>
    case ReadCanonical(goal, count) => GoalLater(goal, chat, later, n, count, seeded);
    case ReadCandidates(goal, count, _, best) =>
      GoalLater(goal, chat, later, n, count, seeded);
      if best.Some? { ReflectsLater(best.value, chat, later, count, seeded); }
    case SaveBest(goal, count, model) =>
      GoalLater(goal, chat, later, n, count, seeded);
      ReflectsLater(model, chat, later, count, seeded);
    case Generate(canonical) => if canonical.Some? { ReflectsLater(canonical.value, chat, later, n, seeded); }
    case SaveBuilt(built) => ReflectsLater(built, chat, later, n, seeded);
    case SaveOwn(own) => ReflectsLater(own, chat, later, n, seeded);
    case Done(result) => ResultLater(result, chat, later, n, seeded);
  }

  lemma ResolveSound(r: Request, goal: Goal, canonical: Option<Model>, chat: seq<Message>, count: nat, seeded: bool)
    requires r.chat <= chat && GoalSound(goal, chat, |r.chat|, count, seeded)
             && MaybeReflects(canonical, chat, count, seeded)
    ensures RequestSound(r.(step := Resolve(r, goal, canonical)), chat, seeded)
  {
    hide SourceReflects;
    if goal.ReportCached? {
      var own := goal.cached;
      var shown := if canonical.Some? then WithCanonicalStatus(own, canonical.value) else own;
      assert Reflects(shown, chat, count, seeded) && count <= |chat|;
    }
  }

  /** What a request reads is sound, so its next step is. */
  lemma ReadSound(messages: seq<Message>, cache: Cache, r: Request, answer: Answer, seeded: bool)
    requires RequestSound(r, ChatOf(messages), seeded) && CacheSound(cache, ChatOf(messages), seeded)
    ensures RequestSound(ReadStep(messages, cache, r, answer), ChatOf(messages), seeded)
  {
    hide SourceReflects, ChatOf, Resolve, Better, FallbackKeys;
    var chat := ChatOf(messages);
    match r.step
    case Begin =>
    case ReadOwn =>
    case ReadCanonical(goal, count) =>
      var entry := Find(cache, Canonical);
      if entry.Some? && entry.value.count == count { ResolveSound(r, goal, Some(entry.value.model), chat, count, seeded); }
    case ReadCandidates(goal, count, keys, best) =>
      if keys == [] && best.None? { ResolveSound(r, goal, None, chat, count, seeded); }
    case SaveBest(goal, count, model) => ResolveSound(r, goal, Some(model), chat, count, seeded);
    case Generate(canonical) => GeneratedReflects(r, chat, answer, seeded);
    case SaveBuilt(built) =>
    case SaveOwn(own) =>
    case Done(_) =>
  }

  lemma GeneratedReflects(r: Request, chat: seq<Message>, answer: Answer, seeded: bool)
    requires r.chat <= chat
    ensures answer.Answer? ==>
              var source := FromChat(r.chat, r.language, answer.call);
              Reflects(Model(source, Status(source, answer.collected, answer.confirmed, answer.conflict)),
                       chat, |r.chat|, seeded)
    ensures SourceReflects(FromChat(r.chat, r.language, 0), chat, |r.chat|, seeded)
  {
  }

  lemma WrittenSound(cache: Cache, r: Request, chat: seq<Message>, seeded: bool)
    requires RequestSound(r, chat, seeded) && CacheSound(cache, chat, seeded)
    ensures CacheSound(Written(cache, r), chat, seeded)
  {
    hide Reflects, GoalSound, ResultSound;
  }

  /** One step of any request, or one message, keeps the invariant. */
  lemma NextSound(s: State, move: Move, seeded: bool)
    requires Sound(s, seeded)
    ensures Sound(Next(s, move), seeded)
  {
    hide ChatOf, RequestSound, CacheSound, ReadStep, Written;
    var chat := ChatOf(s.messages);
    match move
    case ApplyTemplate => EmptyCacheSound(chat, seeded);
    case Delete => EmptyCacheSound(chat, seeded);
    case Append(message) =>
      ChatOfSnoc(s.messages, message);
      var later := ChatOf(s.messages + [message]);
      forall i | 0 <= i < |s.requests| ensures RequestSound(s.requests[i], later, seeded) {
        RequestLater(s.requests[i], chat, later, seeded);
      }
      CacheLater(s.cache, chat, later, seeded);
    case Start(job, language) =>
      StartSound(job, language, chat, seeded);
    case Advance(i, answer) =>
      if i < |s.requests| {
        FailureSound(s.requests[i], chat, seeded);
        ReadSound(s.messages, s.cache, s.requests[i], answer, seeded);
        WrittenSound(s.cache, s.requests[i], chat, seeded);
      }
  }

  lemma EmptyCacheSound(chat: seq<Message>, seeded: bool)
    ensures CacheSound(map[], chat, seeded)
  {
  }

  lemma FailureSound(r: Request, chat: seq<Message>, seeded: bool)
    requires RequestSound(r, chat, seeded)
    ensures RequestSound(r.(step := Done(Failed)), chat, seeded)
  {
  }

  lemma StartSound(job: Job, language: Language, chat: seq<Message>, seeded: bool)
    ensures RequestSound(Request(job, language, [], Begin), chat, seeded)
  {
  }

  lemma CacheLater(cache: Cache, chat: seq<Message>, later: seq<Message>, seeded: bool)
    requires chat <= later && CacheSound(cache, chat, seeded)
    ensures CacheSound(cache, later, seeded)
  {
    hide Reflects;
    forall key | key in cache ensures Reflects(cache[key].model, later, cache[key].count, seeded) {
      ReflectsLater(cache[key].model, chat, later, cache[key].count, seeded);
    }
  }

  lemma InitialSound(s: State, seeded: bool)
    requires Initial(s, seeded)
    ensures Sound(s, seeded)
  {
    if seeded {
      assert s.messages == [] + [s.messages[0]];
      ChatOfSnoc([], s.messages[0]);
    }
  }

  lemma {:induction false} RunSound(s: State, moves: seq<Move>, seeded: bool)
    requires Sound(s, seeded)
    ensures Sound(After(s, moves), seeded)
    decreases |moves|
  {
    hide Next, Sound;
    if moves != [] {
      NextSound(s, moves[0], seeded);
      RunSound(Next(s, moves[0]), moves[1..], seeded);
    }
  }

  /** For every interleaving: an entry with stamp n was built from exactly the first n
      chat messages, or is the template's and n is 1. */
  lemma EntriesReflectTheirStamp(s: State, moves: seq<Move>, seeded: bool, key: Key)
    requires Initial(s, seeded) && key in After(s, moves).cache
    ensures var t := After(s, moves); Reflects(t.cache[key].model, ChatOf(t.messages), t.cache[key].count, seeded)
  {
    hide After, Reflects, ChatOf, Initial, RequestSound;
    InitialSound(s, seeded);
    RunSound(s, moves, seeded);
  }

  /** For every interleaving: a model that is reported ready, or served, is the model of
      the whole chat the request saw. */
  lemma ReadyReflectsChat(s: State, moves: seq<Move>, seeded: bool, i: nat)
    requires Initial(s, seeded)
    requires i < |After(s, moves).requests| && After(s, moves).requests[i].step.Done?
    ensures var t := After(s, moves); var r := t.requests[i];
            r.chat <= ChatOf(t.messages) && ResultSound(r.step.result, ChatOf(t.messages), |r.chat|, seeded)
  {
    hide After, Reflects, ChatOf, Initial, CacheSound, ResultSound, GoalSound;
    InitialSound(s, seeded);
    RunSound(s, moves, seeded);
    assert RequestSound(After(s, moves).requests[i], ChatOf(After(s, moves).messages), seeded);
  }

  // ----- stamps -----

  /** Every entry is still there, and no stamp is older. */
  predicate Keeps(before: Cache, after: Cache) {
    forall key :: key in before ==> key in after && before[key].count <= after[key].count
  }

  /** Every step of the run keeps the entries and stamps it finds. */
  predicate EveryStepKeeps(s: State, moves: seq<Move>)
    decreases |moves|
  {
    moves == [] || (Keeps(s.cache, Next(s, moves[0]).cache) && EveryStepKeeps(Next(s, moves[0]), moves[1..]))
  }

  predicate Empties(move: Move) { move.ApplyTemplate? || move.Delete? }

  /** No change of template and no deletion of the run meets an entry. */
  predicate NeverEmptied(s: State, moves: seq<Move>)
    decreases |moves|
  {
    moves == [] || ((Empties(moves[0]) ==> s.cache == map[]) && NeverEmptied(Next(s, moves[0]), moves[1..]))
  }

  lemma KeepsUnlessEmptied(s: State, move: Move)
    ensures Keeps(s.cache, Next(s, move).cache) <==> (Empties(move) ==> s.cache == map[])
  {
    hide ReadStep;
    if Empties(move) && s.cache != map[] {
      var key :| key in s.cache;
      assert key !in Next(s, move).cache;
    }
  }

  /** For every interleaving: each step keeps all entries and stamps exactly if no change of
      template and no deletion meets an entry. */
  lemma {:induction false} StampsKeptIff(s: State, moves: seq<Move>)
    ensures EveryStepKeeps(s, moves) <==> NeverEmptied(s, moves)
    decreases |moves|
  {
    hide Next, Keeps;
    if moves != [] {
      KeepsUnlessEmptied(s, moves[0]);
      StampsKeptIff(Next(s, moves[0]), moves[1..]);
    }
  }

  /** So the stamps of such a run never decrease. */
  lemma {:induction false} StampsNeverDecrease(s: State, moves: seq<Move>, key: Key)
    requires key in s.cache && NeverEmptied(s, moves)
    ensures key in After(s, moves).cache && s.cache[key].count <= After(s, moves).cache[key].count
    decreases |moves|
  {
    hide Next;
    if moves != [] {
      KeepsUnlessEmptied(s, moves[0]);
      StampsNeverDecrease(Next(s, moves[0]), moves[1..], key);
    }
  }

  /** No move empties the cache. */
  predicate CacheStays(moves: seq<Move>) { forall k :: 0 <= k < |moves| ==> !Empties(moves[k]) }

  lemma {:induction false} StaysIsNeverEmptied(s: State, moves: seq<Move>)
    requires CacheStays(moves)
    ensures NeverEmptied(s, moves)
    decreases |moves|
  {
    hide Next;
    if moves != [] { StaysIsNeverEmptied(Next(s, moves[0]), moves[1..]); }
  }

  // ----- a run that brings back an older stamp -----

  const EMPTY_SESSION := State([], map[], [], false)

  /** A message arrives and a build is requested, and that request has read the chat. */
  function Beginning(id: nat, language: Language, i: nat): seq<Move> {
    [Append(Message(id, Chat)), Start(Summarize(true), language), Advance(i, Error)]
  }

  /** The language model answers a request, which saves the model. */
  function Ending(i: nat, answer: Answer): seq<Move> { [Advance(i, answer), Advance(i, Error), Advance(i, Error)] }

  /** The first request begins, the second runs from begin to end. */
  function TwoBuilds(language: Language, answer: Answer): seq<Move> {
    Beginning(0, language, 0) + Beginning(1, language, 1) + Ending(1, answer)
  }

  lemma {:induction false} AfterConcat(s: State, a: seq<Move>, b: seq<Move>)
    ensures After(s, a + b) == After(After(s, a), b)
    decreases |a|
  {
    hide Next;
    if a == [] {
      assert a + b == b;
    } else {
      assert (a + b)[1..] == a[1..] + b;
      AfterConcat(Next(s, a[0]), a[1..], b);
    }
  }

  lemma AfterThree(s: State, a: Move, b: Move, c: Move)
    ensures After(s, [a, b, c]) == Next(Next(Next(s, a), b), c)
  {
    hide Next;
    AfterOne(Next(Next(s, a), b), c);
    assert [b, c][1..] == [c] && [a, b, c][1..] == [b, c];
    assert After(Next(s, a), [b, c]) == After(Next(Next(s, a), b), [c]);
  }

  lemma AfterBeginning(s: State, id: nat, language: Language)
    requires !s.deleted
    ensures var messages := s.messages + [Message(id, Chat)];
            After(s, Beginning(id, language, |s.requests|))
            == State(messages, s.cache,
                     s.requests + [Request(Summarize(true), language,
                                           ChatOf(s.messages) + [Message(id, Chat)], Generate(None))],
                     false)
  {
    hide ChatOf;
    ChatOfSnoc(s.messages, Message(id, Chat));
    AfterThree(s, Append(Message(id, Chat)), Start(Summarize(true), language), Advance(|s.requests|, Error));
  }

  /** What a request that found no canonical model builds. */
  function BuiltBy(r: Request, answer: Answer): Model
    requires answer.Answer?
  {
    var source := FromChat(r.chat, r.language, answer.call);
    Model(source, Status(source, answer.collected, answer.confirmed, answer.conflict))
  }

  lemma AfterEnding(s: State, i: nat, answer: Answer)
    requires !s.deleted && answer.Answer? && i < |s.requests| && s.requests[i].step == Generate(None)
    ensures var r := s.requests[i]; var t := After(s, Ending(i, answer)); var built := BuiltBy(r, answer);
            && t.messages == s.messages && !t.deleted && t.requests == s.requests[i := r.(step := Done(Served(built)))]
            && t.cache == Save(Save(s.cache, Canonical, |r.chat|, built), Localized(r.language), |r.chat|, built)
  {
    hide Save, ChatOf, Resolve, NextBest, FallbackKeys, Find, After;
    AfterThree(s, Advance(i, answer), Advance(i, Error), Advance(i, Error));
    var r := s.requests[i];
    var built := BuiltBy(r, answer);
    var s1 := Next(s, Advance(i, answer));
    assert s1 == s.(requests := s.requests[i := r.(step := SaveBuilt(built))]);
    var s2 := Next(s1, Advance(i, Error));
    assert s2 == s.(requests := s.requests[i := r.(step := SaveOwn(built))],
                    cache := Save(s.cache, Canonical, |r.chat|, built));
  }

  lemma AfterTwoBuilds(language: Language, answer: Answer)
    requires answer.Answer?
    ensures var t := After(EMPTY_SESSION, TwoBuilds(language, answer));
            && !t.deleted && Localized(language) in t.cache && Canonical in t.cache
            && |t.requests| == 2 && t.requests[0] == Request(Summarize(true), language, [Message(0, Chat)], Generate(None))
            && forall key :: key in t.cache ==> t.cache[key].count == 2
  {
    hide After, Next, Save, ChatOf, BuiltBy;
    NoChatYet();
    var a, b, c := Beginning(0, language, 0), Beginning(1, language, 1), Ending(1, answer);
    AfterConcat(EMPTY_SESSION, a + b, c);
    AfterConcat(EMPTY_SESSION, a, b);
    AfterBeginning(EMPTY_SESSION, 0, language);
    var s1 := After(EMPTY_SESSION, a);
    assert s1.messages == [Message(0, Chat)] && [] + [Message(0, Chat)] == [Message(0, Chat)];
    ChatOfSnoc([], Message(0, Chat));
    AfterBeginning(s1, 1, language);
    var s2 := After(s1, b);
    assert s2.requests[1] == Request(Summarize(true), language, [Message(0, Chat)] + [Message(1, Chat)],
                                     Generate(None));
    AfterEnding(s2, 1, answer);
    SavedTwice(Localized(language), 2, BuiltBy(s2.requests[1], answer));
  }

  lemma NoChatYet()
    ensures ChatOf([]) == []
  {
  }

  lemma SavedTwice(key: Key, count: nat, model: Model)
    ensures Save(Save(map[], Canonical, count, model), key, count, model)
            == map[Canonical := Entry(count, model), key := Entry(count, model)]
  {
  }

  /** An older model is refused. */
  lemma OlderIsRefused(cache: Cache, key: Key, count: nat, model: Model)
    requires key in cache && count < cache[key].count
    ensures Save(cache, key, count, model) == cache
  {
  }

  /** From a new session: the first request begins after one message, the second builds
      the model of two. If another template is applied before the first one ends, its
      model comes back with the older stamp; otherwise its model is refused. */
  lemma TemplateChangeAllowsOlder(language: Language, answer: Answer)
    requires answer.Answer?
    ensures Initial(EMPTY_SESSION, false)
    ensures var key := Localized(language);
            var builds := TwoBuilds(language, answer);
            var newer := After(EMPTY_SESSION, builds);
            var older := After(EMPTY_SESSION, builds + [ApplyTemplate] + Ending(0, answer));
            && key in newer.cache && newer.cache[key].count == 2
            && key in older.cache && older.cache[key].count == 1
            && After(EMPTY_SESSION, builds + Ending(0, answer)).cache == newer.cache
  {
    hide After, Next, TwoBuilds, ChatOf;
    var builds := TwoBuilds(language, answer);
    var newer := After(EMPTY_SESSION, builds);
    AfterTwoBuilds(language, answer);
    AfterConcat(EMPTY_SESSION, builds, Ending(0, answer));
    AfterEnding(newer, 0, answer);
    OlderIsRefused(newer.cache, Canonical, 1, BuiltBy(newer.requests[0], answer));
    OlderIsRefused(newer.cache, Localized(language), 1, BuiltBy(newer.requests[0], answer));
    AfterConcat(EMPTY_SESSION, builds + [ApplyTemplate], Ending(0, answer));
    AfterConcat(EMPTY_SESSION, builds, [ApplyTemplate]);
    AfterOne(newer, ApplyTemplate);
    AfterEnding(newer.(cache := map[]), 0, answer);
  }

  lemma AfterOne(s: State, move: Move)
    ensures After(s, [move]) == Next(s, move)
    ensures Next(s, ApplyTemplate) == s.(cache := map[])
  {
    assert [move][1..] == [];
  }

  /** The entry of the language has the stamp of the present chat. */
  predicate UpToDate(s: State, language: Language) {
    Localized(language) in s.cache && s.cache[Localized(language)].count == |ChatOf(s.messages)|
  }

  predicate NoChat(moves: seq<Move>) {
    CacheStays(moves) && forall k :: 0 <= k < |moves| && moves[k].Append? ==> moves[k].message.kind == Document
  }

  lemma {:induction false} ChatUnchanged(s: State, moves: seq<Move>)
    requires NoChat(moves)
    ensures ChatOf(After(s, moves).messages) == ChatOf(s.messages)
    decreases |moves|
  {
    hide ReadStep, Written, ChatOf;
    if moves != [] {
      if moves[0].Append? { ChatOfSnoc(s.messages, moves[0].message); }
      ChatUnchanged(Next(s, moves[0]), moves[1..]);
    }
  }

  /** A request that saves the model of the present chat makes its language up to date,
      and nothing but chat, another template or deletion ends that, documents included. */
  lemma UpToDateUntilNextChat(s: State, i: nat, answer: Answer, moves: seq<Move>, seeded: bool)
    requires Sound(s, seeded) && !s.deleted && i < |s.requests| && s.requests[i].step.SaveOwn?
    requires s.requests[i].chat == ChatOf(s.messages) && NoChat(moves)
    ensures UpToDate(After(Next(s, Advance(i, answer)), moves), s.requests[i].language)
  {
    hide After, ChatOf, ReadStep, RequestSound, SourceReflects;
    var key := Localized(s.requests[i].language);
    var t := Next(s, Advance(i, answer));
    NextSound(s, Advance(i, answer), seeded);
    assert key in t.cache && t.cache[key].count == |ChatOf(s.messages)|;
    StaysIsNeverEmptied(t, moves);
    StampsNeverDecrease(t, moves, key);
    ChatUnchanged(t, moves);
    RunSound(t, moves, seeded);
    assert Reflects(After(t, moves).cache[key].model, ChatOf(After(t, moves).messages),
                    After(t, moves).cache[key].count, seeded);
  }

  // ----- documents -----

  function WithoutDocuments(moves: seq<Move>): seq<Move> {
    if moves == [] then []
    else if moves[0].Append? && moves[0].message.kind == Document then WithoutDocuments(moves[1..])
    else [moves[0]] + WithoutDocuments(moves[1..])
  }

  predicate SameButDocuments(s: State, t: State) {
    ChatOf(s.messages) == ChatOf(t.messages) && s.cache == t.cache && s.requests == t.requests && s.deleted == t.deleted
  }

  lemma NextSame(s: State, t: State, move: Move)
    requires SameButDocuments(s, t)
    ensures SameButDocuments(Next(s, move), Next(t, move))
  {
    hide ChatOf, Written, Resolve, Better, FallbackKeys;
    if move.Append? {
      ChatOfSnoc(s.messages, move.message);
      ChatOfSnoc(t.messages, move.message);
    }
  }

  /** Saving documents changes no cache entry and no request's answer: every run gives
      what the same run without them gives. */
  lemma {:induction false} DocumentsAreInvisible(s: State, t: State, moves: seq<Move>)
    requires SameButDocuments(s, t)
    ensures SameButDocuments(After(s, moves), After(t, WithoutDocuments(moves)))
    decreases |moves|
  {
    hide Next, ChatOf, SameButDocuments;
    if moves != [] {
      var rest := WithoutDocuments(moves[1..]);
      if moves[0].Append? && moves[0].message.kind == Document {
        DocumentSame(s, t, moves[0].message);
        DocumentsAreInvisible(Next(s, moves[0]), t, moves[1..]);
      } else {
        NextSame(s, t, moves[0]);
        DocumentsAreInvisible(Next(s, moves[0]), Next(t, moves[0]), moves[1..]);
        assert ([moves[0]] + rest)[1..] == rest;
      }
    }
  }

  lemma DocumentSame(s: State, t: State, message: Message)
    requires SameButDocuments(s, t) && message.kind == Document
    ensures SameButDocuments(Next(s, Append(message)), t)
  {
    hide ChatOf;
    ChatOfSnoc(s.messages, message);
  }

  // ----- what is served -----

  /** A request that asks for no refresh and finds its language and the canonical model up
      to date is served the cached model, with the canonical status, and writes nothing;
      the language model is not asked. */
  lemma FreshIsServed(s: State, i: nat)
    requires i < |s.requests| && !s.deleted && s.requests[i].job == Summarize(false) && s.requests[i].step == Begin
    requires UpToDate(s, s.requests[i].language)
    requires Canonical in s.cache && s.cache[Canonical].count == |ChatOf(s.messages)|
    ensures var r := s.requests[i]; var t := After(s, [Advance(i, Error), Advance(i, Error), Advance(i, Error)]);
            && t.cache == s.cache && t.messages == s.messages && i < |t.requests|
            && t.requests[i].step
               == Done(Served(WithCanonicalStatus(s.cache[Localized(r.language)].model, s.cache[Canonical].model)))
  {
    hide ChatOf, After, FallbackKeys, NextBest;
    AfterThree(s, Advance(i, Error), Advance(i, Error), Advance(i, Error));
  }
}
