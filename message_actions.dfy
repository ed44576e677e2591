/** components/message-actions.tsx: the pure updaters behind the message action bar — the
    vote-cache updater handed to SWR's `mutate`, the copy-text extraction, the artifact
    transition on a feedback click, the feedback request and the button rules. */
module MessageActions {
  import opened Wrappers
  import Text
  import Json
  import Schema

  // ---------------------------------------------------------------------------------------
  // Votes (lines 142-161, 195-214)

  /** A cached vote. */
  datatype Vote = Vote(chatId: string, messageId: string, isUpvoted: bool)

  /** The upvote and downvote buttons run the same updater with a different flag. */
  datatype Direction = Up | Down

  function IsUpvote(direction: Direction): bool {
    direction == Up
  }

  /** `b` holds the elements of `a` in order, possibly with others in between. */
  predicate IsSubsequence<T(==)>(a: seq<T>, b: seq<T>)
    decreases |b|
  {
    if a == [] then true
    else if b == [] then false
    else if a[0] == b[0] then IsSubsequence(a[1..], b[1..])
    else IsSubsequence(a, b[1..])
  }

  /** `votes.filter(vote => vote.messageId !== messageId)`: no vote for the message is
      left; every other vote keeps its multiplicity; the order is kept. */
  function WithoutMessage(votes: seq<Vote>, messageId: string): (r: seq<Vote>)
    ensures forall i :: 0 <= i < |r| ==> r[i].messageId != messageId
    ensures forall v: Vote :: v.messageId != messageId ==> multiset(r)[v] == multiset(votes)[v]
    ensures IsSubsequence(r, votes)
  {
    if votes == [] then []
    else
      var rest := WithoutMessage(votes[1..], messageId);
      assert votes == [votes[0]] + votes[1..];
      if votes[0].messageId != messageId then
        assert ([votes[0]] + rest)[1..] == rest;
        [votes[0]] + rest
      else
        assert rest == [] || rest[0] != votes[0];
        rest
  }

  /** The updater: an undefined cache becomes the empty list; otherwise every vote for the
      message is dropped and one new vote appended. */
  function UpdateVotes(currentVotes: Option<seq<Vote>>, chatId: string, messageId: string,
                       direction: Direction): (r: seq<Vote>)
    ensures currentVotes.None? ==> r == []
    ensures currentVotes.Some? ==>
      && |r| >= 1
      && r[|r| - 1] == Vote(chatId, messageId, IsUpvote(direction))
      && (forall i :: 0 <= i < |r| - 1 ==> r[i].messageId != messageId)
      && (forall v: Vote :: v.messageId != messageId ==> multiset(r)[v] == multiset(currentVotes.value)[v])
      && IsSubsequence(r[..|r| - 1], currentVotes.value)
  {
    match currentVotes
    case None => []
    case Some(votes) =>
      var kept := WithoutMessage(votes, messageId);
      var r := kept + [Vote(chatId, messageId, IsUpvote(direction))];
      assert r[..|r| - 1] == kept;
      r
  }

  /** Filtering out a message twice is filtering it once. */
  lemma {:induction false} WithoutMessageIdempotent(votes: seq<Vote>, messageId: string)
    ensures WithoutMessage(WithoutMessage(votes, messageId), messageId) == WithoutMessage(votes, messageId)
    decreases |votes|
  {
    if votes != [] {
      WithoutMessageIdempotent(votes[1..], messageId);
      var rest := WithoutMessage(votes[1..], messageId);
      if votes[0].messageId != messageId {
        assert ([votes[0]] + rest)[1..] == rest;
      }
    }
  }

  /** A vote for the message at the end disappears in the filter. */
  lemma {:induction false} WithoutMessageDropsLast(votes: seq<Vote>, v: Vote, messageId: string)
    requires v.messageId == messageId
    ensures WithoutMessage(votes + [v], messageId) == WithoutMessage(votes, messageId)
    decreases |votes|
  {
    if votes == [] {
      assert ([v])[1..] == [];
    } else {
      assert (votes + [v])[1..] == votes[1..] + [v];
      WithoutMessageDropsLast(votes[1..], v, messageId);
    }
  }

  /** A second update for the same message overrides the first: running the same update
      twice equals running it once, and an upvote followed by a downvote equals the
      downvote alone. */
  lemma UpdateVotesOverrides(votes: seq<Vote>, chatId: string, messageId: string,
                             first: Direction, second: Direction)
    ensures UpdateVotes(Some(UpdateVotes(Some(votes), chatId, messageId, first)), chatId, messageId, second)
         == UpdateVotes(Some(votes), chatId, messageId, second)
  {
    var kept := WithoutMessage(votes, messageId);
    WithoutMessageDropsLast(kept, Vote(chatId, messageId, IsUpvote(first)), messageId);
    WithoutMessageIdempotent(votes, messageId);
  }

  /** `votes.find(vote => vote.messageId === messageId)`: the vote the action bar of that
      message is rendered with. */
  function FindVote(votes: seq<Vote>, messageId: string): (r: Option<Vote>)
    ensures r.Some? ==> r.value in votes && r.value.messageId == messageId
    ensures r.None? <==> forall i :: 0 <= i < |votes| ==> votes[i].messageId != messageId
  {
    if votes == [] then None
    else if votes[0].messageId == messageId then Some(votes[0])
    else
      var r := FindVote(votes[1..], messageId);
      assert forall i :: 1 <= i < |votes| ==> votes[i] == votes[1..][i - 1];
      r
  }

  // ---------------------------------------------------------------------------------------
  // Buttons (lines 71-92, 80, 127, 181)

  /** What the action bar shows: nothing while loading; for a user message only the
      feedback button; otherwise copy, upvote and downvote. */
  datatype ActionBar =
    | NoActions
    | UserActions(feedbackDisabled: bool)
    | AssistantActions(upvoteDisabled: bool, downvoteDisabled: bool)

  /** `disabled={vote?.isUpvoted}`. */
  predicate UpvoteDisabled(vote: Option<Vote>) {
    vote.Some? && vote.value.isUpvoted
  }

  /** `disabled={vote && !vote.isUpvoted}` (the downvote and the feedback buttons). */
  predicate DownvoteDisabled(vote: Option<Vote>) {
    vote.Some? && !vote.value.isUpvoted
  }

  function ActionBarFor(isLoading: bool, role: string, vote: Option<Vote>): (bar: ActionBar)
    ensures isLoading <==> bar.NoActions?
    ensures !isLoading ==> (role == "user" <==> bar.UserActions?)
    ensures bar.UserActions? ==> (bar.feedbackDisabled <==> vote.Some? && !vote.value.isUpvoted)
    ensures bar.AssistantActions? ==>
      && (bar.upvoteDisabled <==> vote.Some? && vote.value.isUpvoted)
      && (bar.downvoteDisabled <==> vote.Some? && !vote.value.isUpvoted)
      && !(bar.upvoteDisabled && bar.downvoteDisabled)
  {
    if isLoading then NoActions
    else if role == "user" then UserActions(DownvoteDisabled(vote))
    else AssistantActions(UpvoteDisabled(vote), DownvoteDisabled(vote))
  }

  /** After a vote is cached for a message, its bar disables exactly the button of the vote
      just cast. */
  lemma VotedButtonDisabled(votes: seq<Vote>, chatId: string, messageId: string, direction: Direction)
    ensures var vote := FindVote(UpdateVotes(Some(votes), chatId, messageId, direction), messageId);
      && vote == Some(Vote(chatId, messageId, IsUpvote(direction)))
      && (UpvoteDisabled(vote) <==> direction == Up)
      && (DownvoteDisabled(vote) <==> direction == Down)
  {
    var r := UpdateVotes(Some(votes), chatId, messageId, direction);
    FindLastOnly(r, messageId);
  }

  /** When only the last vote is for the message, `find` returns that one. */
  lemma {:induction false} FindLastOnly(votes: seq<Vote>, messageId: string)
    requires |votes| >= 1 && votes[|votes| - 1].messageId == messageId
    requires forall i :: 0 <= i < |votes| - 1 ==> votes[i].messageId != messageId
    ensures FindVote(votes, messageId) == Some(votes[|votes| - 1])
    decreases |votes|
  {
    if |votes| > 1 {
      FindLastOnly(votes[1..], messageId);
    }
  }

  // ---------------------------------------------------------------------------------------
  // Copy (lines 101-113)

  /** A UI message part: a text part, or any other kind. */
  datatype UiPart = TextPart(text: string) | OtherPart(kind: string)

  /** `parts.filter(part => part.type === 'text').map(part => part.text)`. */
  function TextsOf(parts: seq<UiPart>): (texts: seq<string>)
    ensures |texts| <= |parts|
    ensures |parts| == 1 ==> texts == if parts[0].TextPart? then [parts[0].text] else []
    ensures forall t :: t in texts <==> TextPart(t) in parts
  {
    if parts == [] then []
    else (if parts[0].TextPart? then [parts[0].text] else []) + TextsOf(parts[1..])
  }

  /** The filter and map distribute over concatenation: with the one-part cases above,
      this fixes the texts and their order. */
  lemma {:induction false} TextsOfAppend(a: seq<UiPart>, b: seq<UiPart>)
    ensures TextsOf(a + b) == TextsOf(a) + TextsOf(b)
    decreases |a|
  {
    if a != [] {
      TextsOfAppend(a[1..], b);
      assert (a + b)[1..] == a[1..] + b;
    } else {
      assert a + b == b;
    }
  }

  datatype CopyOutcome = NothingToCopy | Copy(text: string)

  /** The copy button: the texts joined by line feeds and trimmed; nothing is copied when
      the message has no parts or the result is empty. */
  function CopyText(parts: Option<seq<UiPart>>): (r: CopyOutcome)
    ensures r.Copy? ==> r.text != [] && !Text.IsSpace(r.text[0]) && !Text.IsSpace(r.text[|r.text| - 1])
    ensures r.Copy? ==> parts.Some? && r.text == Text.Trim(Text.Join(TextsOf(parts.value), "\n"))
    ensures r.NothingToCopy? <==>
      parts.None? || forall k :: 0 <= k < |Text.Join(TextsOf(parts.value), "\n")| ==>
                       Text.IsSpace(Text.Join(TextsOf(parts.value), "\n")[k])
  {
    match parts
    case None => NothingToCopy
    case Some(ps) =>
      var text := Text.Trim(Text.Join(TextsOf(ps), "\n"));
      if text == "" then NothingToCopy else Copy(text)
  }

  /** A line without surrounding white space. */
  predicate TidyLine(s: string) {
    s != [] && '\n' !in s && !Text.IsSpace(s[0]) && !Text.IsSpace(s[|s| - 1])
  }

  /** Joined tidy lines start with the first line's first character and end with the last
      line's last character. */
  lemma {:induction false} JoinEnds(xs: seq<string>)
    requires |xs| >= 1 && forall i :: 0 <= i < |xs| ==> xs[i] != []
    ensures var j := Text.Join(xs, "\n");
      j != [] && j[0] == xs[0][0] && j[|j| - 1] == xs[|xs| - 1][|xs[|xs| - 1]| - 1]
    decreases |xs|
  {
    if |xs| > 1 {
      JoinEnds(xs[1..]);
    }
  }

  /** When the text parts are tidy lines, the copied text is their join, and splitting it at
      line feeds gives back exactly the text parts, in order. */
  lemma CopyTextRecoversTextParts(parts: seq<UiPart>)
    requires TextsOf(parts) != []
    requires forall i :: 0 <= i < |TextsOf(parts)| ==> TidyLine(TextsOf(parts)[i])
    ensures CopyText(Some(parts)) == Copy(Text.Join(TextsOf(parts), "\n"))
    ensures Text.Lines(CopyText(Some(parts)).text) == TextsOf(parts)
  {
    var xs := TextsOf(parts);
    JoinEnds(xs);
    Text.TrimOfTrimmed(Text.Join(xs, "\n"));
    Text.LinesOfJoin(xs);
  }

  // ---------------------------------------------------------------------------------------
  // Feedback click (lines 48-69)

  datatype ArtifactStatus = Streaming | Idle

  /** The fields of the artifact the transition reads or writes; `rest` stands for all the
      others, which it copies as a whole. */
  datatype Artifact = Artifact(status: ArtifactStatus, isVisible: bool, documentId: string, rest: seq<string>)

  /** The `setArtifact` updater: a streaming artifact is only hidden; any other becomes
      the initial artifact data with status idle. */
  function CloseArtifact(current: Artifact, initial: Artifact): (r: Artifact)
    ensures current.status == Streaming ==> r == current.(isVisible := false)
    ensures current.status != Streaming ==> r == initial.(status := Idle)
    ensures r.status == current.status || r.status == Idle
    ensures r.status == Streaming <==> current.status == Streaming
  {
    if current.status == Streaming then current.(isVisible := false) else initial.(status := Idle)
  }

  /** Applying the transition twice is applying it once. */
  lemma CloseArtifactIdempotent(current: Artifact, initial: Artifact)
    ensures CloseArtifact(CloseArtifact(current, initial), initial) == CloseArtifact(current, initial)
  {
  }

  /** The message `append` sends to the feedback route. */
  datatype FeedbackMessage = FeedbackMessage(role: string, content: string, data: Schema.FeedbackData)

  /** The effects of one feedback click, in the order the handler runs them. */
  datatype UiEffect =
    | SetArtifact(artifact: Artifact)
    | ClearFeedbackMessages
    | RequestFeedback(message: FeedbackMessage)

  function FeedbackClick(current: Artifact, initial: Artifact, chatId: string, messageId: string,
                         locale: string): (effects: seq<UiEffect>)
    ensures |effects| == if chatId == "" then 2 else 3
    ensures effects[0] == SetArtifact(CloseArtifact(current, initial))
    ensures effects[1] == ClearFeedbackMessages
    ensures chatId != "" ==>
      effects[2] == RequestFeedback(FeedbackMessage("user", "", Schema.FeedbackData(chatId, messageId, locale)))
  {
    [SetArtifact(CloseArtifact(current, initial)), ClearFeedbackMessages]
    + if chatId != "" then [RequestFeedback(FeedbackMessage("user", "", Schema.FeedbackData(chatId, messageId, locale)))]
      else []
  }

  /** The request a click sends passes the route's message schema, whatever its parts, when
      the chat id and message id are UUIDs and the locale has 1 to 10 characters; and then
      only then. */
  lemma FeedbackRequestMatchesSchema(current: Artifact, initial: Artifact, chatId: string, messageId: string,
                                     locale: string, parts: seq<Json.Json>)
    requires chatId != ""
    ensures var m := FeedbackClick(current, initial, chatId, messageId, locale)[2].message;
      (Schema.ValidMessage(Schema.BodyMessage(m.role, m.content, parts, m.data)) <==>
        Schema.IsUuid(chatId) && Schema.IsUuid(messageId) && 1 <= |locale| <= 10)
  {
  }
}
