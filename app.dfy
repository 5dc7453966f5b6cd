/**
 * app.py: the `index` route. A POST with non-empty `content` appends one
 * tweet and redirects; anything else renders every tweet, newest first.
 *
 * The table is the `tweets` field of a `TweetStore`; the primary key counter
 * stands in for SQLite's rowid assignment, and the clock is a parameter.
 */
module TweetBoard {
  import opened Wrappers
  import opened Models

  /** The two request methods the route accepts; a POST carries its form fields. */
  datatype Request = Get | Post(form: map<string, string>)

  /** The route's two outcomes: a redirect to `index`, or the rendered list. */
  datatype Response = Redirect | RenderList(tweets: seq<Tweet>)

  /** The username stored when the form has no `username` field at all. */
  const AnonymousName: string := "\U{540D}\U{7121}\U{3057}\U{3055}\U{3093}"

  /** The fields of a POST that passes the handler's check. */
  datatype Submission = Submission(username: string, content: string)

  /**
   * The handler's check on a POST form: `content` must be present and
   * non-empty (any other text, whitespace included, passes). `username`
   * falls back to the anonymous name only when the field is absent.
   */
  function Validate(form: map<string, string>): (r: Option<Submission>)
    ensures r.Some? <==> "content" in form && form["content"] != ""
    ensures r.Some? ==> r.value.content == form["content"]
    ensures r.Some? && "username" in form ==> r.value.username == form["username"]
    ensures r.Some? && "username" !in form ==> r.value.username == AnonymousName
  {
    var username := if "username" in form then form["username"] else AnonymousName;
    if "content" in form && form["content"] != "" then Some(Submission(username, form["content"]))
    else None
  }

  /** Whitespace-only content passes, and a present but empty username is kept as it is. */
  lemma ValidateExamples()
    ensures Validate(map["content" := " "]) == Some(Submission(AnonymousName, " "))
    ensures Validate(map["username" := "", "content" := "hi"]) == Some(Submission("", "hi"))
    ensures Validate(map["username" := "alice", "content" := ""]) == None
    ensures Validate(map["username" := "alice"]) == None
  {
  }

  /** Ordered by `created_at`, newest first. */
  predicate NewestFirst(s: seq<Tweet>) {
    forall i, j :: 0 <= i < j < |s| ==> s[i].createdAt >= s[j].createdAt
  }

  /** A tweet at least as new as the head of a newest-first list may go in front of it. */
  lemma PrependNewest(x: Tweet, s: seq<Tweet>)
    requires NewestFirst(s)
    requires s != [] ==> x.createdAt >= s[0].createdAt
    ensures NewestFirst([x] + s)
  {
  }

  /** Put `t` into a newest-first list, ahead of every tweet not newer than it. */
  function InsertNewest(t: Tweet, s: seq<Tweet>): (r: seq<Tweet>)
    requires NewestFirst(s)
    ensures NewestFirst(r)
    ensures multiset(r) == multiset(s) + multiset{t}
    ensures r[0] == t || (s != [] && r[0] == s[0])
  {
    if s == [] || t.createdAt >= s[0].createdAt then
      PrependNewest(t, s);
      [t] + s
    else
      assert s == [s[0]] + s[1..];
      var rest := InsertNewest(t, s[1..]);
      PrependNewest(s[0], rest);
      [s[0]] + rest
  }

  /**
   * The rendered list, `Tweet.query.order_by(Tweet.created_at.desc())`: every
   * stored tweet, newest first. Among equal timestamps the tweet stored later
   * comes first.
   */
  function Timeline(tweets: seq<Tweet>): (r: seq<Tweet>)
    ensures NewestFirst(r)
    ensures multiset(r) == multiset(tweets)
  {
    if tweets == [] then []
    else
      var last := |tweets| - 1;
      assert tweets == tweets[..last] + [tweets[last]];
      InsertNewest(tweets[last], Timeline(tweets[..last]))
  }

  /** A tweet is listed exactly when it is stored, and the listing is as long as the table. */
  lemma TimelineMembers(tweets: seq<Tweet>, t: Tweet)
    ensures t in Timeline(tweets) <==> t in tweets
    ensures |Timeline(tweets)| == |tweets|
  {
    assert t in Timeline(tweets) <==> t in multiset(Timeline(tweets));
    assert |Timeline(tweets)| == |multiset(Timeline(tweets))|;
  }

  /** Three tweets stored oldest first are listed newest first. */
  lemma TimelineExample(t1: Tweet, t2: Tweet, t3: Tweet)
    requires t1.createdAt == 1 && t2.createdAt == 2 && t3.createdAt == 3
    ensures Timeline([t1, t2, t3]) == [t3, t2, t1]
  {
    assert [t1, t2, t3][..2] == [t1, t2];
    assert [t1, t2][..1] == [t1];
    assert [t1][..0] == [];
  }

  /** Distinct primary keys. */
  predicate DistinctIds(tweets: seq<Tweet>) {
    forall i, j :: 0 <= i < j < |tweets| ==> tweets[i].id != tweets[j].id
  }

  /** The `tweet` table and the next primary key SQLite would assign. */
  class TweetStore {
    var tweets: seq<Tweet>
    var nextId: int

    /** Keys are positive, increase in insertion order, and stay below `nextId`. */
    ghost predicate Valid()
      reads this
    {
      && nextId >= 1
      && (forall i :: 0 <= i < |tweets| ==> 1 <= tweets[i].id < nextId)
      && (forall i, j :: 0 <= i < j < |tweets| ==> tweets[i].id < tweets[j].id)
    }

    /** An empty table. */
    constructor ()
      ensures Valid() && tweets == [] && nextId == 1
    {
      tweets := [];
      nextId := 1;
    }

    /** What GET renders: the timeline of the stored tweets. */
    function Listing(): (r: seq<Tweet>)
      reads this
      ensures NewestFirst(r) && multiset(r) == multiset(tweets)
    {
      Timeline(tweets)
    }

    /**
     * `index()`: a POST that passes `Validate` appends one tweet stamped
     * with `now` and redirects; every other request leaves the table as it
     * is and renders the listing.
     */
    method Index(req: Request, now: int) returns (resp: Response)
      requires Valid()
      modifies this
      ensures Valid()
      ensures DistinctIds(tweets)
      ensures req.Get? ==> tweets == old(tweets) && nextId == old(nextId)
      ensures req.Post? && Validate(req.form).Some? ==>
                && tweets == old(tweets) + [Tweet(old(nextId), Validate(req.form).value.username,
                                                  Validate(req.form).value.content, now)]
                && nextId == old(nextId) + 1
                && resp == Redirect
      ensures (req.Get? || Validate(req.form).None?) ==>
                && tweets == old(tweets) && nextId == old(nextId)
                && resp == RenderList(Listing())
    {
      if req.Post? {
        var submission := Validate(req.form);
        if submission.Some? {
          var t := Tweet(nextId, submission.value.username, submission.value.content, now);
          tweets := tweets + [t];
          nextId := nextId + 1;
          return Redirect;
        }
      }
      resp := RenderList(Timeline(tweets));
    }
  }

  /** The declared widths are not checked: a 281-character post is accepted. */
  lemma DeclaredWidthNotEnforced()
    ensures var long := seq(ContentWidth + 1, _ => 'a');
            var form := map["content" := long];
            Validate(form).Some?
            && !FitsDeclaredColumns(Tweet(1, Validate(form).value.username, Validate(form).value.content, 0))
  {
  }

  /** A tweet just stored appears in the listing, and so does every earlier one. */
  lemma {:induction false} PostedTweetListed(old_tweets: seq<Tweet>, t: Tweet)
    ensures t in Timeline(old_tweets + [t])
    ensures forall u :: u in old_tweets ==> u in Timeline(old_tweets + [t])
  {
    TimelineMembers(old_tweets + [t], t);
    forall u | u in old_tweets
      ensures u in Timeline(old_tweets + [t])
    {
      TimelineMembers(old_tweets + [t], u);
    }
  }
}
