/** The decisions of the subject card (components/SubjectCard.tsx): which
    topic list it uses, the count on its badge, the description it shows,
    and which one of four panels fills its collapsible part. Layout, icons,
    the open/closed toggle and the opening of study-material links are not
    modelled. */
module SubjectCardView {

  import opened Wrappers
  import opened Backend
  import Queries

  /** The props that take part in the decisions. `id` names the subject
      whose content the card fetches; `topics` and `useBackendTopics` are
      optional, and `None` is a prop left out. */
  datatype CardProps = CardProps(
    id: SubjectIdentifier,
    description: string,
    topics: Option<seq<string>>,
    useBackendTopics: Option<bool>)

  /** A backend topic as the card shows it: its title, its description when
      that is non-empty, and its study-material titles when it has any. */
  datatype TopicView = TopicView(title: string, description: Option<string>, materials: Option<seq<string>>)

  /** The content of the collapsible part: exactly one of four panels. */
  datatype Panel =
    | LoadingSpinner
    | BackendTopicList(items: seq<TopicView>)
    | StaticTopicList(names: seq<string>)
    | ComingSoon

  datatype CardView = CardView(badgeCount: nat, description: string, panel: Panel)

  /** The `topics` prop after its default `[]`. */
  function StaticTopics(p: CardProps): seq<string> {
    match p.topics
    case Some(ts) => ts
    case None => []
  }

  /** The `useBackendTopics` prop after its default `false`. */
  function UsesBackend(p: CardProps): bool {
    match p.useBackendTopics
    case Some(b) => b
    case None => false
  }

  /** `displayTopics`: the fetched topic list when the card is asked to use
      backend topics and content has arrived (an array is truthy even when
      empty), otherwise null. */
  function DisplayTopics(useBackend: bool, content: Option<SubjectContent>): (r: Option<seq<Topic>>)
    ensures r.Some? <==> useBackend && content.Some?
    ensures r.Some? ==> r.value == content.value.topics
  {
    if useBackend && content.Some? then Some(content.value.topics) else None
  }

  /** `topicCount`: the backend list's length when there is one, even an
      empty one, else the number of static topics. */
  function TopicCount(display: Option<seq<Topic>>, staticTopics: seq<string>): (n: nat)
    ensures display.Some? ==> n == |display.value|
    ensures display.None? ==> n == |staticTopics|
  {
    match display
    case Some(ts) => |ts|
    case None => |staticTopics|
  }

  /** `fullDescription`: `content?.description || description`; the empty
      string is falsy, so it falls back like missing content does. */
  function FullDescription(content: Option<SubjectContent>, staticDescription: string): (r: string)
    ensures content.Some? && content.value.description != "" ==> r == content.value.description
    ensures content.None? || content.value.description == "" ==> r == staticDescription
    ensures r == "" <==> staticDescription == "" && (content.None? || content.value.description == "")
  {
    if content.Some? && content.value.description != "" then content.value.description
    else staticDescription
  }

  /** The study-materials block of one topic: one entry per material, in
      list order. */
  function MaterialTitles(ms: seq<StudyMaterial>): (r: seq<string>)
    ensures |r| == |ms|
    ensures forall i :: 0 <= i < |ms| ==> r[i] == ms[i].title
  {
    if ms == [] then [] else [ms[0].title] + MaterialTitles(ms[1..])
  }

  function ShowTopic(t: Topic): (v: TopicView)
    ensures v.title == t.title
    ensures v.description.Some? <==> t.description != ""
    ensures v.description.Some? ==> v.description.value == t.description
    ensures v.materials.Some? <==> |t.studyMaterials| > 0
    ensures v.materials.Some? ==> |v.materials.value| == |t.studyMaterials|
  {
    TopicView(
      t.title,
      if t.description != "" then Some(t.description) else None,
      if |t.studyMaterials| > 0 then Some(MaterialTitles(t.studyMaterials)) else None)
  }

  /** `displayTopics.map(...)`: one view per topic, in list order. */
  function ShowTopics(ts: seq<Topic>): (r: seq<TopicView>)
    ensures |r| == |ts|
    ensures forall i :: 0 <= i < |ts| ==> r[i] == ShowTopic(ts[i])
  {
    if ts == [] then [] else [ShowTopic(ts[0])] + ShowTopics(ts[1..])
  }

  /** The nested conditional of the collapsible content: spinner, backend
      topics, static topics, "Topics coming soon", in that order; each case
      holds exactly when the earlier ones fail and its own condition holds. */
  function SelectPanel(isLoading: bool, useBackend: bool, display: Option<seq<Topic>>,
                       staticTopics: seq<string>): (panel: Panel)
    ensures panel.LoadingSpinner? <==> isLoading && useBackend
    ensures panel.BackendTopicList? <==>
      !(isLoading && useBackend) && display.Some? && |display.value| > 0
    ensures panel.StaticTopicList? <==>
      !(isLoading && useBackend) && !(display.Some? && |display.value| > 0) && |staticTopics| > 0
    ensures panel.ComingSoon? <==>
      !(isLoading && useBackend) && !(display.Some? && |display.value| > 0) && |staticTopics| == 0
    ensures panel.BackendTopicList? ==> panel.items == ShowTopics(display.value)
    ensures panel.StaticTopicList? ==> panel.names == staticTopics
  {
    if isLoading && useBackend then LoadingSpinner
    else if display.Some? && |display.value| > 0 then BackendTopicList(ShowTopics(display.value))
    else if |staticTopics| > 0 then StaticTopicList(staticTopics)
    else ComingSoon
  }

  /** The card for given props, fetched subject content (absent until content
      has first arrived) and loading flag. The badge counts the backend topics
      whenever those are used, an empty list included, else the static ones;
      the backend description is shown iff it exists and is non-empty; the
      panel follows the fixed order of `SelectPanel`, with backend topics
      used only when asked for and fetched. */
  function RenderCard(p: CardProps, content: Option<SubjectContent>, isLoading: bool): (v: CardView)
    ensures v.badgeCount ==
      if UsesBackend(p) && content.Some? then |content.value.topics| else |StaticTopics(p)|
    ensures content.Some? && content.value.description != "" ==> v.description == content.value.description
    ensures content.None? || content.value.description == "" ==> v.description == p.description
    ensures var backend := UsesBackend(p) && content.Some? && |content.value.topics| > 0;
      && (v.panel.LoadingSpinner? <==> isLoading && UsesBackend(p))
      && (v.panel.BackendTopicList? <==> !(isLoading && UsesBackend(p)) && backend)
      && (v.panel.StaticTopicList? <==>
            !(isLoading && UsesBackend(p)) && !backend && |StaticTopics(p)| > 0)
      && (v.panel.ComingSoon? <==>
            !(isLoading && UsesBackend(p)) && !backend && |StaticTopics(p)| == 0)
  {
    var display := DisplayTopics(UsesBackend(p), content);
    CardView(
      TopicCount(display, StaticTopics(p)),
      FullDescription(content, p.description),
      SelectPanel(isLoading, UsesBackend(p), display, StaticTopics(p)))
  }

  /** The query the card runs: `useGetSubjectContent(id)`. */
  function CardQuery(p: CardProps): (q: Queries.Query)
    ensures Queries.QueryKey(q) == ["subjectContent", p.id]
  {
    Queries.SubjectContentOf(p.id)
  }

  // ------------------------------------------------------------ properties

  /** A card with an empty `id` never fetches: its query's gate stays closed,
      so it never has backend content and shows the static description,
      the static count and no backend topics. */
  lemma EmptyIdNeverFetches(p: CardProps, a: Queries.ActorStatus, reply: Result<Queries.QueryData>, isLoading: bool)
    requires p.id == ""
    requires reply.Success? ==> Queries.Fits(CardQuery(p), reply.value)
    ensures !Queries.Enabled(CardQuery(p), a)
    ensures Queries.Observe(CardQuery(p), a, reply) == Queries.Pending
    ensures RenderCard(p, None, isLoading).description == p.description
    ensures RenderCard(p, None, isLoading).badgeCount == |StaticTopics(p)|
    ensures !RenderCard(p, None, isLoading).panel.BackendTopicList?
  {
  }

  /** A fetched but empty topic list gives a zero badge even when static
      topics exist. */
  lemma EmptyBackendListCountsZero(p: CardProps, d: string, isLoading: bool)
    requires UsesBackend(p)
    ensures RenderCard(p, Some(SubjectContent(d, [])), isLoading).badgeCount == 0
  {
  }

  /** The card never shows an empty description when either source of one
      is non-empty. */
  lemma DescriptionNonEmpty(p: CardProps, content: Option<SubjectContent>, isLoading: bool)
    requires p.description != "" || (content.Some? && content.value.description != "")
    ensures RenderCard(p, content, isLoading).description != ""
    ensures RenderCard(p, content, isLoading).description == p.description ||
            RenderCard(p, content, isLoading).description == content.value.description
  {
  }

  /** The backend list shows every fetched topic, in order; the static list
      shows the static names unchanged. */
  lemma ListedTopics(p: CardProps, content: Option<SubjectContent>, isLoading: bool)
    ensures var panel := RenderCard(p, content, isLoading).panel;
      && (panel.BackendTopicList? ==>
            |panel.items| == |content.value.topics| &&
            forall i :: 0 <= i < |panel.items| ==> panel.items[i] == ShowTopic(content.value.topics[i]))
      && (panel.StaticTopicList? ==> panel.names == StaticTopics(p))
  {
  }

  /** With the default props (no `topics`, no `useBackendTopics`) the card
      always shows "Topics coming soon" and a zero badge, whatever was
      fetched and whatever the loading flag says. */
  lemma DefaultPropsComingSoon(id: SubjectIdentifier, d: string, content: Option<SubjectContent>, isLoading: bool)
    ensures RenderCard(CardProps(id, d, None, None), content, isLoading).panel == ComingSoon
    ensures RenderCard(CardProps(id, d, None, None), content, isLoading).badgeCount == 0
  {
  }

  /** Whenever a list is shown, the badge counts its entries, except when a
      fetched topic list is empty and the static list is shown in its place. */
  lemma BadgeMatchesList(p: CardProps, content: Option<SubjectContent>, isLoading: bool)
    ensures var v := RenderCard(p, content, isLoading);
      && (v.panel.BackendTopicList? ==> v.badgeCount == |v.panel.items|)
      && (v.panel.StaticTopicList? && !(UsesBackend(p) && content.Some?) ==>
            v.badgeCount == |v.panel.names|)
  {
  }

  /** The exception above occurs: backend topics requested, an empty list
      fetched, one static topic; the badge says 0 while one topic is listed. */
  lemma BadgeDisagreesWithStaticList()
    ensures var v := RenderCard(CardProps("Botany", "", Some(["Cells"]), Some(true)),
                                Some(SubjectContent("", [])), false);
      v.badgeCount == 0 && v.panel == StaticTopicList(["Cells"])
  {
  }
}
