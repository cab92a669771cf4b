/** Requests that build, read and report requirement models while the chat goes on. Every
    access to the store is one step, and the steps of all requests interleave. */
module ModelCache {
  import opened Basics
  import opened SessionStore

  datatype Job = Summarize(forceRefresh: bool) | Refresh | Snapshot

  datatype Sync = Ready | Stale | Missing

  /** What a request hands back; a report without a model shows the empty one. */
  datatype Result = Served(model: Model) | Reported(shown: Option<Model>, status: Sync, messageCount: nat) | Failed

  /** What the canonical model is looked up for. */
  datatype Goal = Serve(own: Model) | Build | ReportMissing | ReportCached(cached: Model, cachedCount: nat)

  /** The next step of a request. */
  datatype Step =
    | Begin
    | ReadOwn
    | ReadCanonical(goal: Goal, count: nat)
    | ReadCandidates(goal: Goal, count: nat, keys: seq<Key>, best: Option<Model>)
    | SaveBest(goal: Goal, count: nat, model: Model)
    | Generate(canonical: Option<Model>)
    | SaveBuilt(built: Model)
    | SaveOwn(own: Model)
    | Done(result: Result)

  /** `chat` is the chat the request saw when it began. */
  datatype Request = Request(job: Job, language: Language, chat: seq<Message>, step: Step)

  /** The reply of the language model. */
  datatype Answer = Answer(call: nat, collected: nat, confirmed: nat, conflict: nat) | Error

  /** A deleted session keeps its last messages here, for the record. */
  datatype State = State(messages: seq<Message>, cache: Cache, requests: seq<Request>, deleted: bool)

  /** Messages arrive, requests start and advance, another template is applied (which
      empties the cache), the session is deleted. */
  datatype Move =
    | Append(message: Message)
    | Start(job: Job, language: Language)
    | Advance(i: nat, answer: Answer)
    | ApplyTemplate
    | Delete

  /** The canonical status replaces a model's own. */
  function WithCanonicalStatus(model: Model, canonical: Model): Model { Model(model.body, canonical.status) }

  /** Later scores win only if they are greater: collected, confirmed, fewest conflicts. */
  predicate Better(a: Status, b: Status) {
    || a.collected > b.collected
    || (a.collected == b.collected && (a.confirmed > b.confirmed || (a.confirmed == b.confirmed && a.conflict < b.conflict)))
  }

  /** Better is to be greater in this order: more collected, then more confirmed, then fewer
      conflicts. So of any two one is better unless they are equal in all three. */
  lemma BetterIsOrder(a: Status, b: Status, c: Status)
    ensures a.collected > b.collected ==> Better(a, b)
    ensures a.collected == b.collected && a.confirmed > b.confirmed ==> Better(a, b)
    ensures a.collected == b.collected && a.confirmed == b.confirmed && a.conflict < b.conflict ==> Better(a, b)
    ensures !(Better(a, b) && Better(b, a)) && (Better(a, b) && Better(b, c) ==> Better(a, c))
    ensures !Better(a, b) && !Better(b, a) <==>
              a.collected == b.collected && a.confirmed == b.confirmed && a.conflict == b.conflict
  {
  }

  /** The candidates are all languages, the preferred one first. */
  lemma FallbackIsAll(language: Language, other: Language)
    ensures var keys := FallbackKeys(language);
            && |keys| == 4 && keys[0] == Localized(language) && Localized(other) in keys
            && forall i, k :: 0 <= i < k < 4 ==> keys[i] != keys[k]
  {
  }

  /** The request's own language first, then the others in order. */
  function FallbackKeys(language: Language): seq<Key> {
    match language
    case Zh => [Localized(Zh), Localized(En), Localized(De), Localized(Ms)]
    case En => [Localized(En), Localized(Zh), Localized(De), Localized(Ms)]
    case De => [Localized(De), Localized(Zh), Localized(En), Localized(Ms)]
    case Ms => [Localized(Ms), Localized(Zh), Localized(En), Localized(De)]
  }

  /** The running best after one more candidate; another stamp is no candidate. */
  function NextBest(cache: Cache, key: Key, count: nat, best: Option<Model>): Option<Model> {
    var entry := Find(cache, key);
    if entry.Some? && entry.value.count == count && (best.None? || Better(entry.value.model.status, best.value.status))
    then Some(entry.value.model) else best
  }

  predicate Candidate(cache: Cache, key: Key, count: nat) {
    key in cache && cache[key].count == count
  }

  /** Of the first `i` keys, key `w` is a candidate that no other beats and that beats all
      candidates before it. */
  predicate FirstBest(cache: Cache, keys: seq<Key>, i: nat, count: nat, w: nat)
    requires i <= |keys|
  {
    w < i && Candidate(cache, keys[w], count) &&
    forall k :: 0 <= k < i && Candidate(cache, keys[k], count) ==>
      !Better(cache[keys[k]].model.status, cache[keys[w]].model.status) &&
      (k < w ==> Better(cache[keys[w]].model.status, cache[keys[k]].model.status))
  }

  /** The candidate loop, when no other request runs in between. */
  method BestCachedStructuredRequirementModel(store: SQLiteSessionStore, messageCount: nat, preferred: Language)
    returns (best: Option<Model>)
    ensures var cache, keys := store.structuredRequirementCache, FallbackKeys(preferred);
            if best.Some? then
              exists w: nat :: FirstBest(cache, keys, |keys|, messageCount, w) && best.value == cache[keys[w]].model
            else forall k :: 0 <= k < |keys| ==> !Candidate(cache, keys[k], messageCount)
  {
    best := None;
    ghost var w: nat := 0;
    var keys := FallbackKeys(preferred);
    ghost var cache := store.structuredRequirementCache;
    var i := 0;
    while i < |keys|
      invariant 0 <= i <= |keys|
      invariant best.None? ==> forall k :: 0 <= k < i ==> !Candidate(cache, keys[k], messageCount)
      invariant best.Some? ==> FirstBest(cache, keys, i, messageCount, w) && best.value == cache[keys[w]].model
    {
      var candidate := store.GetStructuredRequirementCacheEntry(keys[i]);
      if candidate.Some? && candidate.value.count == messageCount
         && (best.None? || Better(candidate.value.model.status, best.value.status)) {
        best, w := Some(candidate.value.model), i;
      }
      i := i + 1;
    }
  }

  /** The canonical model has been looked up. */
  function Resolve(r: Request, goal: Goal, canonical: Option<Model>): Step {
    match goal
    case Serve(own) => Done(Served(if canonical.Some? then WithCanonicalStatus(own, canonical.value) else own))
    case Build => Generate(canonical)
    case ReportMissing => Done(Reported(canonical, if canonical.None? && |r.chat| == 0 then Ready else Missing, |r.chat|))
    case ReportCached(own, count) =>
      Done(Reported(Some(if canonical.Some? then WithCanonicalStatus(own, canonical.value) else own),
                    if count == |r.chat| then Ready else Stale, |r.chat|))
  }

  /** The steps for which the session must exist. */
  predicate NeedsSession(step: Step) { step.Begin? || step.SaveBest? || step.SaveBuilt? || step.SaveOwn? }

  /** One step of a request, but for what it writes. */
  function ReadStep(messages: seq<Message>, cache: Cache, r: Request, answer: Answer): Request {
    match r.step
    case Begin =>
      var chat := ChatOf(messages);
      Request(r.job, r.language, chat,
              if r.job == Summarize(true) then Generate(None)
              else if r.job == Refresh then ReadCanonical(Build, |chat|)
              else ReadOwn)
    case ReadOwn =>
      var entry := Find(cache, Localized(r.language));
      var n := |r.chat|;
      r.(step :=
         if r.job == Snapshot then
           if entry.None? then ReadCanonical(ReportMissing, n)
           else ReadCanonical(ReportCached(entry.value.model, entry.value.count), entry.value.count)
         else if entry.Some? && entry.value.count == n then ReadCanonical(Serve(entry.value.model), n)
         else ReadCanonical(Build, n))
    case ReadCanonical(goal, count) =>
      var entry := Find(cache, Canonical);
      r.(step := if entry.Some? && entry.value.count == count then Resolve(r, goal, Some(entry.value.model))
                 else ReadCandidates(goal, count, FallbackKeys(r.language), None))
    case ReadCandidates(goal, count, keys, best) =>
      if keys == [] then r.(step := if best.Some? then SaveBest(goal, count, best.value) else Resolve(r, goal, None))
      else
        r.(step := ReadCandidates(goal, count, keys[1..], NextBest(cache, keys[0], count, best)))
    case Generate(canonical) =>
      if answer.Error? then r.(step := Done(Failed))
      else
        var source := FromChat(r.chat, r.language, answer.call);
        var built := Model(source, Status(source, answer.collected, answer.confirmed, answer.conflict));
        r.(step := if canonical.None? then SaveBuilt(built) else SaveOwn(WithCanonicalStatus(built, canonical.value)))
    case SaveBest(goal, count, model) => r.(step := Resolve(r, goal, Some(model)))
    case SaveBuilt(built) => r.(step := SaveOwn(WithCanonicalStatus(built, built)))
    case SaveOwn(own) => r.(step := Done(Served(own)))
    case Done(_) => r
  }

  /** What the step writes. */
  function Written(cache: Cache, r: Request): Cache {
    match r.step
    case SaveBest(_, count, model) => Save(cache, Canonical, count, model)
    case SaveBuilt(built) => Save(cache, Canonical, |r.chat|, built)
    case SaveOwn(own) => Save(cache, Localized(r.language), |r.chat|, own)
    case _ => cache
  }

  function Next(s: State, move: Move): State {
    match move
    case Append(message) => if s.deleted then s else s.(messages := s.messages + [message])
    case ApplyTemplate => s.(cache := map[])
    case Delete => s.(cache := map[], deleted := true)
    case Start(job, language) => s.(requests := s.requests + [Request(job, language, [], Begin)])
    case Advance(i, answer) =>
      if i < |s.requests| then
        var r := s.requests[i];
        if s.deleted && NeedsSession(r.step) then s.(requests := s.requests[i := r.(step := Done(Failed))])
        else s.(cache := Written(s.cache, r), requests := s.requests[i := ReadStep(s.messages, s.cache, r, answer)])
      else s
  }

  function After(s: State, moves: seq<Move>): State
    decreases |moves|
  {
    if moves == [] then s else After(Next(s, moves[0]), moves[1..])
  }

  /** A new session, empty or seeded from a template's example. */
  predicate Initial(s: State, seeded: bool) {
    && s.requests == [] && !s.deleted
    && if !seeded then s.messages == [] && s.cache == map[]
       else
         && |s.messages| == 1 && s.messages[0].kind == Chat
         && forall key :: key in s.cache ==>
             s.cache[key].count == 1 && s.cache[key].model.body == Seed
             && s.cache[key].model.status.source == Seed
  }

  // ----- what every run keeps -----

  predicate SourceReflects(source: Source, chat: seq<Message>, n: nat, seeded: bool)
    requires n <= |chat|
  {
    if source.FromChat? then source.chat == chat[..n] else seeded && n == 1
  }

  /** Both parts of the model come from exactly the first `n` chat messages, or from the
      template that was the first message. */
  predicate Reflects(model: Model, chat: seq<Message>, n: nat, seeded: bool) {
    n <= |chat| && SourceReflects(model.body, chat, n, seeded) && SourceReflects(model.status.source, chat, n, seeded)
  }

  predicate MaybeReflects(model: Option<Model>, chat: seq<Message>, n: nat, seeded: bool) {
    model.Some? ==> Reflects(model.value, chat, n, seeded)
  }

  predicate GoalSound(goal: Goal, chat: seq<Message>, n: nat, count: nat, seeded: bool) {
    match goal
    case Serve(own) => count == n && Reflects(own, chat, n, seeded)
    case Build => count == n
    case ReportMissing => count == n
    case ReportCached(own, c) => count == c && Reflects(own, chat, c, seeded)
  }

  /** A report is ready exactly if it shows the model of the chat that the request saw, or
      there is no chat and none is shown; a stale one shows the model of another part of
      the chat; one that is missing shows the canonical model of that chat, if any. What
      was served reflects the chat, too. */
  predicate ResultSound(result: Result, chat: seq<Message>, n: nat, seeded: bool) {
    match result
    case Served(model) => Reflects(model, chat, n, seeded)
    case Reported(shown, status, count) => count == n && ReportSound(shown, status, chat, n, seeded)
    case Failed => true
  }

  predicate ReportSound(shown: Option<Model>, status: Sync, chat: seq<Message>, n: nat, seeded: bool) {
    match status
    case Ready => if shown.None? then n == 0 else Reflects(shown.value, chat, n, seeded)
    case Stale => shown.Some? && exists c: nat :: c <= |chat| && c != n && Reflects(shown.value, chat, c, seeded)
    case Missing => if shown.None? then n != 0 else Reflects(shown.value, chat, n, seeded)
  }

  predicate RequestSound(r: Request, chat: seq<Message>, seeded: bool) {
    var n := |r.chat|;
    r.chat <= chat &&
    match r.step
    case Begin => true
    case ReadOwn => true
    case ReadCanonical(goal, count) => GoalSound(goal, chat, n, count, seeded)
    case ReadCandidates(goal, count, _, best) =>
      GoalSound(goal, chat, n, count, seeded) && MaybeReflects(best, chat, count, seeded)
    case SaveBest(goal, count, model) => GoalSound(goal, chat, n, count, seeded) && Reflects(model, chat, count, seeded)
    case Generate(canonical) => MaybeReflects(canonical, chat, n, seeded)
    case SaveBuilt(built) => Reflects(built, chat, n, seeded)
    case SaveOwn(own) => Reflects(own, chat, n, seeded)
    case Done(result) => ResultSound(result, chat, n, seeded)
  }

  predicate CacheSound(cache: Cache, chat: seq<Message>, seeded: bool) {
    forall key :: key in cache ==> Reflects(cache[key].model, chat, cache[key].count, seeded)
  }

  predicate Sound(s: State, seeded: bool) {
    var chat := ChatOf(s.messages);
    CacheSound(s.cache, chat, seeded) && forall i :: 0 <= i < |s.requests| ==> RequestSound(s.requests[i], chat, seeded)
  }
}
