/**
  The app's records (App.tsx:76-110): users, hangouts, tag-along requests and
  chat messages, plus the partial hangout that an update spreads over a
  stored one.
 */
module Model {

  datatype Option<T> = None | Some(value: T)

  /** The value an optional field supplies, or `d` when it is absent. */
  function Override<T>(o: Option<T>, d: T): T {
    match o
    case Some(v) => v
    case None => d
  }

  /** A user; the avatar and image `require`s are display assets and are not modelled. */
  datatype User = User(
    id: string,
    name: string,
    age: int,
    mbti: string,
    reliability: real,
    bio: string,
    interests: seq<string>)

  /** The current user, who hosts every hangout posted from the Create tab. */
  const You: User := User(
    "you", "You", 26, "ENTP", 5.0,
    "Powerlifting nerd \U{B7} Coffee > Tea \U{B7} Learning LangChain",
    ["Gym", "Books", "Anime", "Coffee", "Technology"])

  /** `'matches' | 'matches+compat'` */
  datatype Visibility = Matches | MatchesCompat

  datatype Hangout = Hangout(
    id: string,
    host: User,
    title: string,
    tags: seq<string>,
    when: string,
    where: string,
    distance: string,
    compatibility: int,
    isGroup: bool,
    slots: int,
    visibility: Visibility)

  /** `Partial<Hangout>`: every field may be left out. */
  datatype Patch = Patch(
    id: Option<string>,
    host: Option<User>,
    title: Option<string>,
    tags: Option<seq<string>>,
    when: Option<string>,
    where: Option<string>,
    distance: Option<string>,
    compatibility: Option<int>,
    isGroup: Option<bool>,
    slots: Option<int>,
    visibility: Option<Visibility>)

  const NoChanges: Patch :=
    Patch(None, None, None, None, None, None, None, None, None, None, None)

  /** `{ ...h, ...p }`: the fields `p` supplies win, every other field is `h`'s. */
  function Merge(h: Hangout, p: Patch): (r: Hangout)
    ensures p.id.Some? ==> r.id == p.id.value
    ensures p.host.Some? ==> r.host == p.host.value
    ensures p.title.Some? ==> r.title == p.title.value
    ensures p.tags.Some? ==> r.tags == p.tags.value
    ensures p.when.Some? ==> r.when == p.when.value
    ensures p.where.Some? ==> r.where == p.where.value
    ensures p.distance.Some? ==> r.distance == p.distance.value
    ensures p.compatibility.Some? ==> r.compatibility == p.compatibility.value
    ensures p.isGroup.Some? ==> r.isGroup == p.isGroup.value
    ensures p.slots.Some? ==> r.slots == p.slots.value
    ensures p.visibility.Some? ==> r.visibility == p.visibility.value
    ensures p.id.None? ==> r.id == h.id
    ensures p.host.None? ==> r.host == h.host
    ensures p.title.None? ==> r.title == h.title
    ensures p.tags.None? ==> r.tags == h.tags
    ensures p.when.None? ==> r.when == h.when
    ensures p.where.None? ==> r.where == h.where
    ensures p.distance.None? ==> r.distance == h.distance
    ensures p.compatibility.None? ==> r.compatibility == h.compatibility
    ensures p.isGroup.None? ==> r.isGroup == h.isGroup
    ensures p.slots.None? ==> r.slots == h.slots
    ensures p.visibility.None? ==> r.visibility == h.visibility
  {
    Hangout(
      Override(p.id, h.id),
      Override(p.host, h.host),
      Override(p.title, h.title),
      Override(p.tags, h.tags),
      Override(p.when, h.when),
      Override(p.where, h.where),
      Override(p.distance, h.distance),
      Override(p.compatibility, h.compatibility),
      Override(p.isGroup, h.isGroup),
      Override(p.slots, h.slots),
      Override(p.visibility, h.visibility))
  }

  /** A request's status: `'pending' | 'accepted' | 'declined'`. */
  datatype Status = Pending | Accepted | Declined

  /** What `act` may be called with: `'accepted' | 'declined'`. */
  datatype Decision = Accept | Decline

  function StatusOf(d: Decision): (st: Status)
    ensures st != Pending
    ensures (st == Accepted) <==> (d == Accept)
  {
    match d
    case Accept => Accepted
    case Decline => Declined
  }

  datatype Request = Request(
    id: string,
    hangoutId: string,
    from: User,
    note: Option<string>,
    when: string,
    where: string,
    status: Status)

  /** An entry of the chat history. */
  datatype Message = Message(id: string, message: string, isFromUser: bool)

  /** An empty patch changes nothing. */
  lemma MergeNoChanges(h: Hangout)
    ensures Merge(h, NoChanges) == h
  {
  }

  /** Spreading the same partial twice is spreading it once. */
  lemma MergeIdempotent(h: Hangout, p: Patch)
    ensures Merge(Merge(h, p), p) == Merge(h, p)
  {
  }

  /** A partial that supplies only a title changes the title and nothing else. */
  lemma MergeTitleOnly(h: Hangout, t: string)
    ensures Merge(h, NoChanges.(title := Some(t))) == h.(title := t)
  {
  }

  /** Every field `p1` supplies, `p2` supplies too. */
  predicate Covers(p2: Patch, p1: Patch) {
    && (p1.id.Some? ==> p2.id.Some?)
    && (p1.host.Some? ==> p2.host.Some?)
    && (p1.title.Some? ==> p2.title.Some?)
    && (p1.tags.Some? ==> p2.tags.Some?)
    && (p1.when.Some? ==> p2.when.Some?)
    && (p1.where.Some? ==> p2.where.Some?)
    && (p1.distance.Some? ==> p2.distance.Some?)
    && (p1.compatibility.Some? ==> p2.compatibility.Some?)
    && (p1.isGroup.Some? ==> p2.isGroup.Some?)
    && (p1.slots.Some? ==> p2.slots.Some?)
    && (p1.visibility.Some? ==> p2.visibility.Some?)
  }

  /** A later spread that covers an earlier one overwrites all of it. */
  lemma MergeCovered(h: Hangout, p1: Patch, p2: Patch)
    requires Covers(p2, p1)
    ensures Merge(Merge(h, p1), p2) == Merge(h, p2)
  {
  }
}
