/**
 * The prompt library of src/main.py: users submit prompts, an admin
 * approves or rejects each pending submission once, approval publishes a
 * copy, users star and unstar published prompts, and the listing comes out
 * most starred first.
 *
 * The database is the object's fields: rows are maps from their id, and
 * `uuid.uuid4()` is a counter that hands out ids never used before. The
 * Celery analysis task started after a submission, timestamps other than
 * `reviewed_at`, and the mock `reviewed_by` id are not modelled.
 */
module PromptLibrary {
  import opened Wrappers
  import opened Sorting

  datatype Status = Pending | Approved | Rejected

  datatype Submission = Submission(
    userId: nat, text: string, notes: Option<string>, summary: Option<string>, tags: seq<string>,
    status: Status, adminNotes: Option<string>, reviewedAt: Option<real>)

  datatype Published = Published(userId: nat, submissionId: nat, text: string, summary: Option<string>, tags: seq<string>)

  datatype SubmitError = AuthenticationRequired | AlreadySubmitted

  datatype ReviewError = SubmissionNotFound | AlreadyReviewed | InvalidAction

  datatype StarError = PromptNotFound

  /** The actions a review accepts. */
  predicate KnownAction(action: string)
  {
    action == "approve" || action == "reject"
  }

  /** A pending submission of `text` by `user` exists. */
  predicate HasPending(submissions: map<nat, Submission>, user: nat, text: string)
  {
    exists id | id in submissions :: submissions[id].status == Pending && submissions[id].userId == user
                                      && submissions[id].text == text
  }

  /**
   * No user has two pending submissions of the same text, which is what
   * lets the duplicate check ask the database for one row at most.
   */
  ghost predicate PendingUnique(submissions: map<nat, Submission>)
  {
    forall a, b | a in submissions && b in submissions && a != b
                  && submissions[a].status == Pending && submissions[b].status == Pending ::
      submissions[a].userId != submissions[b].userId || submissions[a].text != submissions[b].text
  }

  /** The submission after a valid review. */
  function Reviewed(s: Submission, action: string, adminNotes: Option<string>, now: real): (r: Submission)
    requires KnownAction(action)
    ensures r.status == (if action == "approve" then Approved else Rejected)
    ensures r == s.(status := r.status, adminNotes := adminNotes, reviewedAt := Some(now))
  {
    s.(status := if action == "approve" then Approved else Rejected, adminNotes := adminNotes, reviewedAt := Some(now))
  }

  /** What approval publishes: the submission's author, text, summary and tags. */
  function PublishedFrom(id: nat, s: Submission): Published
  {
    Published(s.userId, id, s.text, s.summary, s.tags)
  }

  /** The star set after one toggle of `user` on `prompt`. */
  function Toggled(stars: set<(nat, nat)>, prompt: nat, user: nat): (r: set<(nat, nat)>)
    ensures (prompt, user) in r <==> (prompt, user) !in stars
    ensures forall s | s != (prompt, user) :: s in r <==> s in stars
  {
    if (prompt, user) in stars then stars - {(prompt, user)} else stars + {(prompt, user)}
  }

  /** Toggling twice restores the stars. */
  lemma ToggleTwice(stars: set<(nat, nat)>, prompt: nat, user: nat)
    ensures Toggled(Toggled(stars, prompt, user), prompt, user) == stars
  {
  }

  /** `require_admin`: the header must equal the admin key (checked first), then the user must be an admin. */
  datatype AdminError = AdminAccessRequired | NotAnAdmin

  function RequireAdmin(header: Option<string>, adminKey: string, userIsAdmin: Option<bool>): (r: Result<bool, AdminError>)
    ensures r.Ok? <==> header == Some(adminKey) && userIsAdmin == Some(true)
    ensures header != Some(adminKey) ==> r == Err(AdminAccessRequired)
    ensures r == Err(NotAnAdmin) <==> header == Some(adminKey) && userIsAdmin != Some(true)
  {
    if header != Some(adminKey) then Err(AdminAccessRequired)
    else if userIsAdmin != Some(true) then Err(NotAnAdmin)
    else Ok(true)
  }

  // ------------------------------------------------------------ listing

  /** One entry of `get_library_prompts`. */
  datatype Listed = Listed(id: nat, prompt: Published, stars: nat, starredByViewer: bool)

  function StarCount(stars: set<(nat, nat)>, prompt: nat): nat
  {
    |set s | s in stars && s.0 == prompt|
  }

  function ListedStars(e: Listed): int
  {
    e.stars
  }

  /** The entries, in the order the database returned the prompts (newest first). */
  function Entries(newestFirst: seq<nat>, prompts: map<nat, Published>, stars: set<(nat, nat)>, viewer: Option<nat>)
    : (r: seq<Listed>)
    requires forall id | id in newestFirst :: id in prompts
    ensures |r| == |newestFirst|
  {
    seq(|newestFirst|, i requires 0 <= i < |newestFirst| =>
      Listed(newestFirst[i], prompts[newestFirst[i]], StarCount(stars, newestFirst[i]),
             viewer.Some? && (newestFirst[i], viewer.value) in stars))
  }

  /** `response_prompts.sort(key=stars, reverse=True)` over the newest-first entries. */
  function Listing(newestFirst: seq<nat>, prompts: map<nat, Published>, stars: set<(nat, nat)>, viewer: Option<nat>)
    : seq<Listed>
    requires forall id | id in newestFirst :: id in prompts
  {
    SortDesc(Entries(newestFirst, prompts, stars, viewer), ListedStars)
  }

  /**
   * The listing has every prompt once, most starred first, each with its
   * own star count; prompts with equally many stars stay newest first.
   */
  lemma ListingOrdered(newestFirst: seq<nat>, prompts: map<nat, Published>, stars: set<(nat, nat)>, viewer: Option<nat>, k: nat)
    requires forall id | id in newestFirst :: id in prompts
    ensures var r := Listing(newestFirst, prompts, stars, viewer);
      && multiset(r) == multiset(Entries(newestFirst, prompts, stars, viewer))
      && (forall i, j :: 0 <= i < j < |r| ==> r[i].stars >= r[j].stars)
      && (forall e | e in r :: e.id in prompts && e.prompt == prompts[e.id] && e.stars == StarCount(stars, e.id))
      && WithKey(r, ListedStars, k) == WithKey(Entries(newestFirst, prompts, stars, viewer), ListedStars, k)
  {
    var entries := Entries(newestFirst, prompts, stars, viewer);
    var r := Listing(newestFirst, prompts, stars, viewer);
    SortDescStable(entries, ListedStars, k);
    forall i, j | 0 <= i < j < |r| ensures r[i].stars >= r[j].stars {
      assert ListedStars(r[i]) >= ListedStars(r[j]);
    }
    forall e | e in r ensures e.id in prompts && e.prompt == prompts[e.id] && e.stars == StarCount(stars, e.id) {
      assert e in multiset(entries);
    }
  }

  // ------------------------------------------------------------ the database

  class Library {
    var submissions: map<nat, Submission>
    var prompts: map<nat, Published>
    /** (prompt id, user id) pairs. */
    var stars: set<(nat, nat)>
    /** Every id ever handed out is below this. */
    var nextId: nat

    ghost predicate Valid()
      reads this
    {
      && (forall id | id in submissions :: id < nextId)
      && (forall id | id in prompts :: id < nextId)
      && PendingUnique(submissions)
    }

    constructor ()
      ensures Valid() && submissions == map[] && prompts == map[] && stars == {}
    {
      submissions, prompts, stars, nextId := map[], map[], {}, 0;
    }

    /**
     * `submit_to_library`: refused without a user, refused with 409 while the
     * same user has the same text pending, else stored as a new pending
     * submission.
     */
    method Submit(user: Option<nat>, text: string, notes: Option<string>) returns (r: Result<nat, SubmitError>)
      requires Valid()
      modifies this
      ensures Valid()
      ensures user.None? ==> r == Err(AuthenticationRequired)
      ensures user.Some? && HasPending(old(submissions), user.value, text) ==> r == Err(AlreadySubmitted)
      ensures r.Err? ==> submissions == old(submissions) && nextId == old(nextId)
      ensures r.Ok? <==> user.Some? && !HasPending(old(submissions), user.value, text)
      ensures r.Ok? ==>
        && r.value == old(nextId) && r.value !in old(submissions) && nextId == old(nextId) + 1
        && submissions == old(submissions)[r.value := Submission(user.value, text, notes, None, [], Pending, None, None)]
      ensures prompts == old(prompts) && stars == old(stars)
    {
      if user.None? {
        return Err(AuthenticationRequired);
      }
      if HasPending(submissions, user.value, text) {
        return Err(AlreadySubmitted);
      }
      var id := nextId;
      submissions := submissions[id := Submission(user.value, text, notes, None, [], Pending, None, None)];
      nextId := nextId + 1;
      r := Ok(id);
    }

    /**
     * `review_library_submission`: a missing submission, then one already
     * reviewed, then an unknown action are refused, in that order; otherwise
     * the submission is marked and, on approval, exactly one prompt is
     * published from it.
     */
    method Review(id: nat, action: string, adminNotes: Option<string>, now: real) returns (r: Result<(), ReviewError>)
      requires Valid()
      modifies this
      ensures Valid()
      ensures id !in old(submissions) ==> r == Err(SubmissionNotFound)
      ensures id in old(submissions) && old(submissions)[id].status != Pending ==> r == Err(AlreadyReviewed)
      ensures id in old(submissions) && old(submissions)[id].status == Pending && !KnownAction(action) ==>
        r == Err(InvalidAction)
      ensures r.Err? ==> submissions == old(submissions) && prompts == old(prompts) && nextId == old(nextId)
      ensures r.Ok? <==> id in old(submissions) && old(submissions)[id].status == Pending && KnownAction(action)
      ensures r.Ok? ==> submissions == old(submissions)[id := Reviewed(old(submissions)[id], action, adminNotes, now)]
      ensures r.Ok? && action == "approve" ==>
        && old(nextId) !in old(prompts) && nextId == old(nextId) + 1
        && prompts == old(prompts)[old(nextId) := PublishedFrom(id, old(submissions)[id])]
        && |prompts| == |old(prompts)| + 1
      ensures r.Ok? && action == "reject" ==> prompts == old(prompts) && nextId == old(nextId)
      ensures stars == old(stars)
    {
      if id !in submissions {
        return Err(SubmissionNotFound);
      }
      var s := submissions[id];
      if s.status != Pending {
        return Err(AlreadyReviewed);
      }
      if !KnownAction(action) {
        return Err(InvalidAction);
      }
      submissions := submissions[id := Reviewed(s, action, adminNotes, now)];
      if action == "approve" {
        prompts := prompts[nextId := PublishedFrom(id, s)];
        nextId := nextId + 1;
      }
      r := Ok(());
    }

    /** `toggle_star_for_prompt`: `starred` tells which way it went; an unknown prompt is refused. */
    method ToggleStar(prompt: nat, user: nat) returns (r: Result<bool, StarError>)
      requires Valid()
      modifies this
      ensures Valid()
      ensures prompt !in prompts ==> r == Err(PromptNotFound) && stars == old(stars)
      ensures prompt in prompts ==> r == Ok((prompt, user) !in old(stars)) && stars == Toggled(old(stars), prompt, user)
      ensures submissions == old(submissions) && prompts == old(prompts) && nextId == old(nextId)
    {
      if prompt !in prompts {
        return Err(PromptNotFound);
      }
      if (prompt, user) in stars {
        stars := stars - {(prompt, user)};
        r := Ok(false);
      } else {
        stars := stars + {(prompt, user)};
        r := Ok(true);
      }
    }
  }
}
