/**
 * The community page: one shared search query filters the feed, the events
 * and the donor stories; each story shows a Gold or Silver badge by its
 * donation count.
 */
module Community {
  import opened Wrappers
  import opened JsText
  import opened Seqs

  datatype Author = Author(name: string, avatar: string, role: string, donationCount: Option<int>)

  datatype CommunityPost = CommunityPost(
    id: int,
    author: Author,
    date: string,
    content: string,
    image: Option<string>,
    likes: int,
    comments: int,
    shares: int,
    tags: seq<string>)

  datatype Event = Event(
    id: int,
    title: string,
    date: string,
    time: string,
    location: string,
    description: string,
    attendees: int,
    image: Option<string>)

  datatype DonorStory = DonorStory(
    id: int,
    name: string,
    avatar: string,
    donationCount: int,
    story: string,
    image: Option<string>)

  /** `tags.some(tag => tag.toLowerCase().includes(query.toLowerCase()))`. */
  function SomeTagIncludes(tags: seq<string>, query: string): (b: bool)
    ensures b <==> exists i :: 0 <= i < |tags| && IncludesIgnoringCase(tags[i], query)
  {
    if tags == [] then false
    else IncludesIgnoringCase(tags[0], query) || SomeTagIncludes(tags[1..], query)
  }

  predicate PostMatches(post: CommunityPost, query: string)
  {
    IncludesIgnoringCase(post.content, query)
      || IncludesIgnoringCase(post.author.name, query)
      || SomeTagIncludes(post.tags, query)
  }

  predicate EventMatches(event: Event, query: string)
  {
    IncludesIgnoringCase(event.title, query)
      || IncludesIgnoringCase(event.description, query)
      || IncludesIgnoringCase(event.location, query)
  }

  predicate StoryMatches(story: DonorStory, query: string)
  {
    IncludesIgnoringCase(story.name, query) || IncludesIgnoringCase(story.story, query)
  }

  /** `filteredPosts`, in feed order. */
  function FilterPosts(posts: seq<CommunityPost>, query: string): (r: seq<CommunityPost>)
    ensures IsSubsequence(r, posts)
    ensures forall i :: 0 <= i < |r| ==> r[i] in posts && PostMatches(r[i], query)
    ensures forall i :: 0 <= i < |posts| ==> (PostMatches(posts[i], query) ==> posts[i] in r)
    ensures forall x :: x in posts ==> multiset(r)[x] == if PostMatches(x, query) then multiset(posts)[x] else 0
  {
    Filter(posts, p => PostMatches(p, query))
  }

  /** `filteredEvents`, in list order. */
  function FilterEvents(events: seq<Event>, query: string): (r: seq<Event>)
    ensures IsSubsequence(r, events)
    ensures forall i :: 0 <= i < |r| ==> r[i] in events && EventMatches(r[i], query)
    ensures forall i :: 0 <= i < |events| ==> (EventMatches(events[i], query) ==> events[i] in r)
    ensures forall x :: x in events ==> multiset(r)[x] == if EventMatches(x, query) then multiset(events)[x] else 0
  {
    Filter(events, e => EventMatches(e, query))
  }

  /** `filteredStories`, in list order. */
  function FilterStories(stories: seq<DonorStory>, query: string): (r: seq<DonorStory>)
    ensures IsSubsequence(r, stories)
    ensures forall i :: 0 <= i < |r| ==> r[i] in stories && StoryMatches(r[i], query)
    ensures forall i :: 0 <= i < |stories| ==> (StoryMatches(stories[i], query) ==> stories[i] in r)
    ensures forall x :: x in stories ==> multiset(r)[x] == if StoryMatches(x, query) then multiset(stories)[x] else 0
  {
    Filter(stories, s => StoryMatches(s, query))
  }

  /**
   * Clear Search sets the shared query to `""`; since every string includes
   * the empty string, all three lists are then shown whole and in order.
   */
  lemma ClearSearchShowsAll(posts: seq<CommunityPost>, events: seq<Event>, stories: seq<DonorStory>)
    ensures FilterPosts(posts, "") == posts
    ensures FilterEvents(events, "") == events
    ensures FilterStories(stories, "") == stories
  {
    FilterKeepsAll(posts, p => PostMatches(p, ""));
    FilterKeepsAll(events, e => EventMatches(e, ""));
    FilterKeepsAll(stories, s => StoryMatches(s, ""));
  }

  lemma {:induction false} SomeTagIgnoresQueryCase(tags: seq<string>, q1: string, q2: string)
    requires SameIgnoringCase(q1, q2)
    ensures SomeTagIncludes(tags, q1) == SomeTagIncludes(tags, q2)
  {
    if tags != [] {
      SomeTagIgnoresQueryCase(tags[1..], q1, q2);
    }
  }

  /** Two queries that differ only in letter case select the same posts, events and stories. */
  lemma QueryCaseIsIgnored(posts: seq<CommunityPost>, events: seq<Event>, stories: seq<DonorStory>,
                           q1: string, q2: string)
    requires SameIgnoringCase(q1, q2)
    ensures FilterPosts(posts, q1) == FilterPosts(posts, q2)
    ensures FilterEvents(events, q1) == FilterEvents(events, q2)
    ensures FilterStories(stories, q1) == FilterStories(stories, q2)
  {
    forall p | p in posts ensures PostMatches(p, q1) == PostMatches(p, q2) {
      SomeTagIgnoresQueryCase(p.tags, q1, q2);
    }
    FilterAgree(posts, p => PostMatches(p, q1), p => PostMatches(p, q2));
    FilterAgree(events, e => EventMatches(e, q1), e => EventMatches(e, q2));
    FilterAgree(stories, s => StoryMatches(s, q1), s => StoryMatches(s, q2));
  }

  /** In particular, typing the query in capitals changes nothing. */
  lemma UpperCaseQuery(posts: seq<CommunityPost>, events: seq<Event>, stories: seq<DonorStory>, q: string)
    ensures FilterPosts(posts, Upper(q)) == FilterPosts(posts, q)
    ensures FilterEvents(events, Upper(q)) == FilterEvents(events, q)
    ensures FilterStories(stories, Upper(q)) == FilterStories(stories, q)
  {
    QueryCaseIsIrrelevant(q);
    QueryCaseIsIgnored(posts, events, stories, Upper(q), q);
  }

  /** The two badge conditions the story card renders, each on its own. */
  predicate ShowsGoldBadge(donationCount: int) { donationCount >= 25 }
  predicate ShowsSilverBadge(donationCount: int) { donationCount >= 10 && donationCount < 25 }

  datatype Badge = GoldDonor | SilverDonor | NoBadge

  /**
   * The badge a story shows. The two conditions never hold together, so a
   * card shows at most one badge, and none below 10 donations.
   */
  function DonorBadge(donationCount: int): (b: Badge)
    ensures b == GoldDonor <==> ShowsGoldBadge(donationCount)
    ensures b == SilverDonor <==> ShowsSilverBadge(donationCount)
    ensures b == NoBadge <==> donationCount < 10
  {
    if donationCount >= 25 then GoldDonor
    else if donationCount >= 10 then SilverDonor
    else NoBadge
  }
}
