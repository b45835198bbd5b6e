/** The data-access rules of the query hooks (hooks/useQueries.ts), with the
    data-fetching library's machinery stripped away: the cache key of each
    query, the gate that decides whether it may run, what its query function
    yields when no actor (remote service handle) exists, and which cache
    entries each mutation invalidates once it has succeeded.

    The remote service and the library are external. A remote call's answer
    is a parameter (`reply`); the library's prefix matching of keys is the
    one explicit assumption, stated by `IsPrefixOf`. */
module Queries {

  import opened Wrappers
  import opened Backend

  /** A query key: the resource name followed by the ordered parameters. */
  type Key = seq<string>

  /** The five read hooks, with their parameters. */
  datatype Query =
    | AllCourses                                         // useGetAllCourses
    | CoursesByCategory(category: Category)              // useGetCoursesByCategory
    | TopicsBySubject(subjectId: SubjectIdentifier)      // useGetTopicsBySubject
    | TopicById(topicId: TopicIdentifier)                // useGetTopic
    | SubjectContentOf(subjectId: SubjectIdentifier)     // useGetSubjectContent

  /** What `useActor()` reports: whether an actor exists, and whether it is
      still being (re)created. */
  datatype ActorStatus = ActorStatus(present: bool, isFetching: bool)

  /** The data a query resolves with, one variant per result type. */
  datatype QueryData =
    | Courses(courses: seq<Course>)
    | TopicEntries(entries: seq<(TopicIdentifier, Topic)>)
    | TopicValue(topic: Topic)
    | Content(content: SubjectContent)

  /** What a hook reports: no data yet, data, or an error; never both. */
  datatype QueryState = Pending | Succeeded(data: QueryData) | Errored(error: string)

  /** The two mutation hooks, with the variables the caller passes in. */
  datatype Mutation =
    | AddCourse(title: string, description: string, category: Category, level: Level)
    | AddTopicToSubject(subjectId: SubjectIdentifier, topicId: TopicIdentifier, topic: Topic)

  /** A remote update call as issued by a mutation function. */
  datatype RemoteCall =
    | AddCourseCall(title: string, description: string, category: Category, level: Level)
    | AddTopicToSubjectCall(subjectId: SubjectIdentifier, topicId: TopicIdentifier, topic: Topic)

  datatype Freshness = Fresh | Stale

  const ActorNotInitialized: string := "Actor not initialized"
  const TopicNotFound: string := "Topic not found"

  // ---------------------------------------------------------------- keys

  /** The category named by an enum string, if any. */
  function CategoryNamed(name: string): (r: Option<Category>)
    ensures r.Some? ==> CategoryName(r.value) == name
    ensures forall c :: CategoryName(c) == name ==> r == Some(c)
  {
    if name == "Arts" then Some(Arts)
    else if name == "Commerce" then Some(Commerce)
    else if name == "Science" then Some(Science)
    else None
  }

  /** The reading of a key back into the query that owns it. */
  function KeyQuery(k: Key): (r: Option<Query>)
  {
    if k == ["courses"] then Some(AllCourses)
    else if |k| != 2 then None
    else if k[0] == "courses" then
      match CategoryNamed(k[1])
      case Some(c) => Some(CoursesByCategory(c))
      case None => None
    else if k[0] == "topics" then Some(TopicsBySubject(k[1]))
    else if k[0] == "topic" then Some(TopicById(k[1]))
    else if k[0] == "subjectContent" then Some(SubjectContentOf(k[1]))
    else None
  }

  /** The `queryKey` each read hook passes to the library. */
  function QueryKey(q: Query): (k: Key)
    ensures KeyQuery(k) == Some(q)
    ensures 1 <= |k| <= 2
  {
    match q
    case AllCourses => ["courses"]
    case CoursesByCategory(c) => ["courses", CategoryName(c)]
    case TopicsBySubject(s) => ["topics", s]
    case TopicById(t) => ["topic", t]
    case SubjectContentOf(s) => ["subjectContent", s]
  }

  /** Every key that reads as a query is that query's key. */
  lemma KeyQueryIsLeftInverse(k: Key)
    requires KeyQuery(k).Some?
    ensures QueryKey(KeyQuery(k).value) == k
  {
  }

  /** Distinct (operation, parameters) pairs never share a key. */
  lemma QueryKeyInjective(q1: Query, q2: Query)
    requires QueryKey(q1) == QueryKey(q2)
    ensures q1 == q2
  {
  }

  // ---------------------------------------------------------------- gate

  /** The `enabled` option of each read hook: an actor exists and is not
      being fetched; the single-item queries also need a non-empty id. */
  function Enabled(q: Query, a: ActorStatus): (r: bool)
    ensures r ==> a.present && !a.isFetching
    ensures q.TopicById? && q.topicId == "" ==> !r
    ensures q.SubjectContentOf? && q.subjectId == "" ==> !r
    ensures a.present && !a.isFetching && !q.TopicById? && !q.SubjectContentOf? ==> r
    ensures a.present && !a.isFetching && q.TopicById? && q.topicId != "" ==> r
    ensures a.present && !a.isFetching && q.SubjectContentOf? && q.subjectId != "" ==> r
  {
    var ready := a.present && !a.isFetching;
    match q
    case TopicById(t) => ready && t != ""
    case SubjectContentOf(s) => ready && s != ""
    case _ => ready
  }

  // ------------------------------------------------------------ query functions

  predicate IsListQuery(q: Query) {
    q.AllCourses? || q.CoursesByCategory? || q.TopicsBySubject?
  }

  /** The data fits the result type the query declares. */
  predicate Fits(q: Query, d: QueryData) {
    match q
    case AllCourses => d.Courses?
    case CoursesByCategory(_) => d.Courses?
    case TopicsBySubject(_) => d.TopicEntries?
    case TopicById(_) => d.TopicValue?
    case SubjectContentOf(_) => d.Content?
  }

  predicate IsEmptyList(d: QueryData) {
    (d.Courses? && d.courses == []) || (d.TopicEntries? && d.entries == [])
  }

  /** What a query function yields when it runs with no actor: the list
      queries resolve with an empty list, the single-item queries reject. */
  function NoActorResult(q: Query): (r: Result<QueryData>)
    ensures r.Success? <==> IsListQuery(q)
    ensures r.Success? ==> Fits(q, r.value) && IsEmptyList(r.value)
    ensures q.TopicById? ==> r == Failure(TopicNotFound)
    ensures q.SubjectContentOf? ==> r == Failure(ActorNotInitialized)
  {
    match q
    case AllCourses => Success(Courses([]))
    case CoursesByCategory(_) => Success(Courses([]))
    case TopicsBySubject(_) => Success(TopicEntries([]))
    case TopicById(_) => Failure(TopicNotFound)
    case SubjectContentOf(_) => Failure(ActorNotInitialized)
  }

  /** A read hook's `queryFn`: without an actor it yields the fallback and
      calls nothing; with one it yields the remote service's `reply`, which
      the service's typed interface guarantees to be of the query's result
      type. Either way a success carries data of that type. */
  function QueryFn(q: Query, actorPresent: bool, reply: Result<QueryData>): (r: Result<QueryData>)
    requires reply.Success? ==> Fits(q, reply.value)
    ensures r.Success? ==> Fits(q, r.value)
    ensures !actorPresent ==> r == NoActorResult(q)
    ensures actorPresent ==> r == reply
  {
    if actorPresent then reply else NoActorResult(q)
  }

  function StateOf(r: Result<QueryData>): (st: QueryState)
    ensures st != Pending
    ensures st.Succeeded? <==> r.Success?
  {
    match r
    case Success(d) => Succeeded(d)
    case Failure(e) => Errored(e)
  }

  /** What a read hook reports for a query that has never settled before:
      a disabled query stays pending and calls nothing; an enabled one
      reports its query function's result. (Data already cached under the
      key, which the library would report, is not modelled.) */
  function Observe(q: Query, a: ActorStatus, reply: Result<QueryData>): (st: QueryState)
    requires reply.Success? ==> Fits(q, reply.value)
    ensures st.Succeeded? ==> Fits(q, st.data)
    ensures !a.present || a.isFetching ==> st == Pending
    ensures st != Pending <==> Enabled(q, a)
  {
    if Enabled(q, a) then StateOf(QueryFn(q, a.present, reply)) else Pending
  }

  /** The gate makes the no-actor fallbacks unreachable through the hook:
      whenever the query runs, it reports exactly the remote reply. */
  lemma EnabledQueryReportsReply(q: Query, a: ActorStatus, reply: Result<QueryData>)
    requires Enabled(q, a)
    requires reply.Success? ==> Fits(q, reply.value)
    ensures Observe(q, a, reply) == StateOf(reply)
  {
  }

  // ------------------------------------------------------------ invalidation

  /** ASSUMPTION (library behaviour, not in this repository): the filter
      `{ queryKey: p }` of `invalidateQueries` matches every cached key that
      starts with the elements of `p`, compared one by one. */
  predicate IsPrefixOf(p: Key, k: Key) {
    p <= k
  }

  predicate MatchesAny(ps: seq<Key>, k: Key) {
    exists i :: 0 <= i < |ps| && IsPrefixOf(ps[i], k)
  }

  /** The cache after invalidating every entry matched by one of `ps`:
      matched entries become stale, the others keep their state, and no
      entry appears or disappears. */
  function Invalidated(entries: map<Key, Freshness>, ps: seq<Key>): (r: map<Key, Freshness>)
    ensures r.Keys == entries.Keys
    ensures forall k :: k in r ==> r[k] == (if MatchesAny(ps, k) then Stale else entries[k])
  {
    map k | k in entries :: if MatchesAny(ps, k) then Stale else entries[k]
  }

  /** The keys each mutation's `onSuccess` invalidates, scoped to the
      variables of the call. */
  function InvalidationTargets(m: Mutation): (ps: seq<Key>)
    ensures m.AddCourse? ==> ps == [QueryKey(AllCourses)]
    ensures m.AddTopicToSubject? ==>
      ps == [QueryKey(TopicsBySubject(m.subjectId)), QueryKey(SubjectContentOf(m.subjectId))]
  {
    match m
    case AddCourse(_, _, _, _) => [["courses"]]
    case AddTopicToSubject(s, _, _) => [["topics", s], ["subjectContent", s]]
  }

  /** The remote call a mutation function issues: its variables, unchanged. */
  function CallOf(m: Mutation): (c: RemoteCall)
    ensures m.AddCourse? <==> c.AddCourseCall?
    ensures m.AddCourse? ==>
      c.title == m.title && c.description == m.description &&
      c.category == m.category && c.level == m.level
    ensures m.AddTopicToSubject? ==>
      c.subjectId == m.subjectId && c.topicId == m.topicId && c.topic == m.topic
  {
    match m
    case AddCourse(t, d, c, l) => AddCourseCall(t, d, c, l)
    case AddTopicToSubject(s, t, topic) => AddTopicToSubjectCall(s, t, topic)
  }

  /** A mutation function's result: with no actor it rejects with
      "Actor not initialized", otherwise the remote call's outcome. */
  function MutationResult(actorPresent: bool, reply: Outcome): (r: Outcome)
    ensures !actorPresent ==> r == Fail(ActorNotInitialized)
    ensures actorPresent ==> r == reply
  {
    if actorPresent then reply else Fail(ActorNotInitialized)
  }

  /** Adding a topic to subject `s` invalidates exactly the topic list and
      the content of `s`: no other subject, no course query and no single
      topic query is touched. */
  lemma {:induction false} AddTopicScope(s: SubjectIdentifier, t: TopicIdentifier, topic: Topic, q: Query)
    ensures MatchesAny(InvalidationTargets(AddTopicToSubject(s, t, topic)), QueryKey(q))
        <==> q == TopicsBySubject(s) || q == SubjectContentOf(s)
  {
    var ps := InvalidationTargets(AddTopicToSubject(s, t, topic));
    var k := QueryKey(q);
    if q == TopicsBySubject(s) {
      assert IsPrefixOf(ps[0], k);
    } else if q == SubjectContentOf(s) {
      assert IsPrefixOf(ps[1], k);
    }
  }

  /** Adding a course invalidates `["courses"]`; under prefix matching that
      covers every by-category list too, and nothing outside "courses". */
  lemma {:induction false} AddCourseScope(title: string, description: string, c: Category, l: Level, q: Query)
    ensures MatchesAny(InvalidationTargets(AddCourse(title, description, c, l)), QueryKey(q))
        <==> q.AllCourses? || q.CoursesByCategory?
  {
    var ps := InvalidationTargets(AddCourse(title, description, c, l));
    var k := QueryKey(q);
    if q.AllCourses? || q.CoursesByCategory? {
      assert IsPrefixOf(ps[0], k);
    }
  }

  /** Two invalidations in a row act as one over both prefixes. */
  lemma InvalidateTwice(entries: map<Key, Freshness>, p1: Key, p2: Key)
    ensures Invalidated(Invalidated(entries, [p1]), [p2]) == Invalidated(entries, [p1, p2])
  {
    var lhs := Invalidated(Invalidated(entries, [p1]), [p2]);
    var rhs := Invalidated(entries, [p1, p2]);
    forall k | k in lhs
      ensures lhs[k] == rhs[k]
    {
      assert MatchesAny([p1], k) <==> IsPrefixOf(p1, k) by {
        if IsPrefixOf(p1, k) { assert [p1][0] == p1; }
      }
      assert MatchesAny([p2], k) <==> IsPrefixOf(p2, k) by {
        if IsPrefixOf(p2, k) { assert [p2][0] == p2; }
      }
      assert MatchesAny([p1, p2], k) <==> IsPrefixOf(p1, k) || IsPrefixOf(p2, k) by {
        if IsPrefixOf(p1, k) { assert [p1, p2][0] == p1; }
        if IsPrefixOf(p2, k) { assert [p1, p2][1] == p2; }
      }
    }
  }

  /** After a successful `addTopicToSubject(s, t, topic)` the cached entries
      of the topic list and the content of `s` are stale and every other
      query's entry keeps its state. */
  lemma SuccessfulAddTopicEffect(entries: map<Key, Freshness>, s: SubjectIdentifier,
                                 t: TopicIdentifier, topic: Topic, q: Query)
    requires QueryKey(q) in entries
    ensures var after := Invalidated(entries, InvalidationTargets(AddTopicToSubject(s, t, topic)));
      after[QueryKey(q)] ==
        if q == TopicsBySubject(s) || q == SubjectContentOf(s) then Stale else entries[QueryKey(q)]
  {
  }

  /** After a successful `addCourse` every cached course list, by category
      or not, is stale and every topic or subject entry keeps its state. */
  lemma SuccessfulAddCourseEffect(entries: map<Key, Freshness>, title: string, description: string,
                                  c: Category, l: Level, q: Query)
    requires QueryKey(q) in entries
    ensures var after := Invalidated(entries, InvalidationTargets(AddCourse(title, description, c, l)));
      after[QueryKey(q)] ==
        if q.AllCourses? || q.CoursesByCategory? then Stale else entries[QueryKey(q)]
  {
    AddCourseScope(title, description, c, l, q);
  }

  // ------------------------------------------------------------ the cache

  /** The shared query cache, reduced to a fresh/stale flag per key. */
  class QueryCache {
    var entries: map<Key, Freshness>

    constructor ()
      ensures entries == map[]
    {
      entries := map[];
    }

    /** Runs a read hook once: a disabled query changes nothing; a query
        that succeeds leaves its own key fresh and no other key touched;
        a failed one changes nothing. */
    method Fetch(q: Query, a: ActorStatus, reply: Result<QueryData>) returns (st: QueryState)
      requires reply.Success? ==> Fits(q, reply.value)
      modifies this
      ensures st == Observe(q, a, reply)
      ensures entries == if st.Succeeded? then old(entries)[QueryKey(q) := Fresh] else old(entries)
    {
      st := Pending;
      if Enabled(q, a) {
        var r := QueryFn(q, a.present, reply);
        st := StateOf(r);
        if r.Success? {
          entries := entries[QueryKey(q) := Fresh];
        }
      }
    }

    /** `queryClient.invalidateQueries({ queryKey: prefix })`. */
    method Invalidate(prefix: Key)
      modifies this
      ensures entries == Invalidated(old(entries), [prefix])
    {
      entries := Invalidated(entries, [prefix]);
    }

    /** `useAddCourse`: rejects without an actor and issues no call;
        otherwise forwards the four fields and, on success only,
        invalidates `["courses"]`. */
    method AddCourse(actorPresent: bool, title: string, description: string,
                     category: Category, level: Level, reply: Outcome)
      returns (outcome: Outcome, sent: Option<RemoteCall>)
      modifies this
      ensures sent == if actorPresent then Some(CallOf(Mutation.AddCourse(title, description, category, level))) else None
      ensures outcome == MutationResult(actorPresent, reply)
      ensures entries == if outcome.Pass?
        then Invalidated(old(entries), InvalidationTargets(Mutation.AddCourse(title, description, category, level)))
        else old(entries)
    {
      if !actorPresent {
        return Fail(ActorNotInitialized), None;
      }
      sent := Some(CallOf(Mutation.AddCourse(title, description, category, level)));
      outcome := reply;
      if outcome.Pass? {
        Invalidate(["courses"]);
      }
    }

    /** `useAddTopicToSubject`: rejects without an actor and issues no call;
        otherwise forwards subject, topic id and topic and, on success only,
        invalidates the topic list and the content of that subject. */
    method AddTopicToSubject(actorPresent: bool, subjectId: SubjectIdentifier,
                             topicId: TopicIdentifier, topic: Topic, reply: Outcome)
      returns (outcome: Outcome, sent: Option<RemoteCall>)
      modifies this
      ensures sent == if actorPresent then Some(CallOf(Mutation.AddTopicToSubject(subjectId, topicId, topic))) else None
      ensures outcome == MutationResult(actorPresent, reply)
      ensures entries == if outcome.Pass?
        then Invalidated(old(entries), InvalidationTargets(Mutation.AddTopicToSubject(subjectId, topicId, topic)))
        else old(entries)
    {
      if !actorPresent {
        return Fail(ActorNotInitialized), None;
      }
      sent := Some(CallOf(Mutation.AddTopicToSubject(subjectId, topicId, topic)));
      outcome := reply;
      if outcome.Pass? {
        InvalidateTwice(entries, ["topics", subjectId], ["subjectContent", subjectId]);
        Invalidate(["topics", subjectId]);
        Invalidate(["subjectContent", subjectId]);
      }
    }
  }
}
