/**
 * The per-client draft store of the `/api/figma/user-drafts` route: a
 * process-wide map from a client id, taken from the request headers, to that
 * client's ordered list of drafts, with `GET`, `POST` (`add`, `remove`,
 * `clear`) and `DELETE`.
 */
module UserDraftsRoute {
  import opened Wrappers
  import opened Text
  import opened Drafts

  /** The two headers the client id is taken from; `None` when absent. */
  datatype Headers = Headers(forwardedFor: Option<string>, realIp: Option<string>)

  const DEFAULT_USER: string := "default-user"

  /**
   * `getUserId`: the first comma-separated field of a non-empty
   * `x-forwarded-for`, untrimmed; otherwise a non-empty `x-real-ip`;
   * otherwise "default-user".
   */
  function GetUserId(h: Headers): (r: string)
    ensures Truthy(h.forwardedFor) ==>
              var f := h.forwardedFor.value;
              |r| <= |f| && r == f[..|r|] && ',' !in r && (|r| == |f| || f[|r|] == ',')
    ensures !Truthy(h.forwardedFor) && Truthy(h.realIp) ==> r == h.realIp.value
    ensures !Truthy(h.forwardedFor) && !Truthy(h.realIp) ==> r == DEFAULT_USER
  {
    if Truthy(h.forwardedFor) then FirstField(h.forwardedFor.value)
    else if Truthy(h.realIp) then h.realIp.value
    else DEFAULT_USER
  }

  /**
   * The fields of a `POST` body the route reads. A draft whose `key` is
   * missing has the empty key, which the route treats alike.
   */
  datatype PostBody = PostBody(action: Option<string>, draft: Option<Draft>, fileKey: Option<string>)

  /** The JSON replies of the route; `count` is the bucket length after the action. */
  datatype Reply =
    | DraftList(drafts: seq<Draft>)
    | Added(draft: Draft, count: nat)
    | AlreadyExists
    | Removed(removed: bool, count: nat)
    | Cleared(previous: nat)
    | BadRequest(error: string)
    | ServerError(error: string)

  const DRAFT_REQUIRED: string := "Draft data is required"
  const FILE_KEY_REQUIRED: string := "File key is required"
  const INVALID_ACTION: string := "Invalid action"
  const PROCESS_ERROR: string := "Error al procesar la solicitud"

  /** The `success` field of a reply. */
  predicate Succeeded(reply: Reply) {
    !reply.BadRequest? && !reply.ServerError?
  }

  /** The HTTP status of a reply. */
  function Status(reply: Reply): (r: int)
    ensures r == 200 || r == 400 || r == 500
    ensures r == 200 <==> Succeeded(reply)
    ensures r == 400 <==> reply.BadRequest?
  {
    match reply
    case BadRequest(_) => 400
    case ServerError(_) => 500
    case _ => 200
  }

  /** The `message` field of a successful reply to an action. */
  function Message(reply: Reply): string {
    match reply
    case Added(_, _) => "Draft added successfully"
    case AlreadyExists => "Draft already exists"
    case Removed(removed, _) => if removed then "Draft removed successfully" else "Draft not found"
    case Cleared(n) => "Cleared " + NatToString(n) + " drafts"
    case _ => ""
  }

  /** The message of a clear names how many drafts were removed: different counts, different messages. */
  lemma ClearedMessageInjective(m: nat, n: nat)
    requires Message(Cleared(m)) == Message(Cleared(n))
    ensures m == n
  {
    var a := NatToString(m);
    var b := NatToString(n);
    var pre := "Cleared ";
    var post := " drafts";
    assert Message(Cleared(m)) == pre + a + post;
    assert Message(Cleared(n)) == pre + b + post;
    assert |a| == |b|;
    assert a == (pre + a + post)[|pre|..|pre| + |a|];
    assert b == (pre + b + post)[|pre|..|pre| + |b|];
    NatToStringInjective(m, n);
  }

  /** The stored form of an added draft: stamped with the current time, project label defaulted. */
  function Stamp(d: Draft, now: string): Draft {
    WithDefaultProject(d).(lastModified := now)
  }

  /** A bucket after an action, and the reply. */
  datatype Outcome = Outcome(bucket: seq<Draft>, reply: Reply)

  predicate IsAction(body: PostBody, name: string) { body.action == Some(name) }

  /** An `add` whose draft is present and has a non-empty key. */
  predicate HasDraft(body: PostBody) { body.draft.Some? && body.draft.value.key != "" }

  /** The `switch (action)` of `POST`, applied to the caller's bucket `b`. */
  function Apply(b: seq<Draft>, body: PostBody, now: string): (r: Outcome)
    ensures IsAction(body, "add") && !HasDraft(body) ==> r == Outcome(b, BadRequest(DRAFT_REQUIRED))
    ensures IsAction(body, "add") && HasDraft(body) && body.draft.value.key in KeySet(b) ==>
              r == Outcome(b, AlreadyExists)
    ensures IsAction(body, "add") && HasDraft(body) && body.draft.value.key !in KeySet(b) ==>
              var d := body.draft.value;
              |r.bucket| == |b| + 1 && r.bucket[1..] == b
              && r.bucket[0].lastModified == now
              && Truthy(r.bucket[0].projectName)
              && r.bucket[0].projectName == (if Truthy(d.projectName) then d.projectName else Some(DEFAULT_PROJECT))
              && r.bucket[0].(lastModified := d.lastModified, projectName := d.projectName) == d
              && r.reply == Added(r.bucket[0], |b| + 1)
    ensures IsAction(body, "remove") && !Truthy(body.fileKey) ==> r == Outcome(b, BadRequest(FILE_KEY_REQUIRED))
    ensures IsAction(body, "remove") && Truthy(body.fileKey) ==>
              var k := body.fileKey.value;
              (forall d :: d in r.bucket <==> d in b && d.key != k)
              && r.bucket == RemoveKey(b, k)
              && r.reply == Removed(k in KeySet(b), |r.bucket|)
    ensures IsAction(body, "clear") ==> r == Outcome([], Cleared(|b|))
    ensures !IsAction(body, "add") && !IsAction(body, "remove") && !IsAction(body, "clear") ==>
              r == Outcome(b, BadRequest(INVALID_ACTION))
  {
    if IsAction(body, "add") then
      if !HasDraft(body) then Outcome(b, BadRequest(DRAFT_REQUIRED))
      else if body.draft.value.key in KeySet(b) then Outcome(b, AlreadyExists)
      else
        var stored := Stamp(body.draft.value, now);
        Outcome([stored] + b, Added(stored, |b| + 1))
    else if IsAction(body, "remove") then
      if !Truthy(body.fileKey) then Outcome(b, BadRequest(FILE_KEY_REQUIRED))
      else
        var rest := RemoveKey(b, body.fileKey.value);
        Outcome(rest, Removed(|rest| < |b|, |rest|))
    else if IsAction(body, "clear") then Outcome([], Cleared(|b|))
    else Outcome(b, BadRequest(INVALID_ACTION))
  }

  /** No action introduces a duplicate key into a bucket. */
  lemma ApplyKeepsUnique(b: seq<Draft>, body: PostBody, now: string)
    requires UniqueKeys(b)
    ensures UniqueKeys(Apply(b, body, now).bucket)
  {
    if IsAction(body, "add") && HasDraft(body) {
      PrependNewUnique(b, Stamp(body.draft.value, now));
    } else if IsAction(body, "remove") && Truthy(body.fileKey) {
      DropKeysUnique(b, {body.fileKey.value});
    }
  }

  function AddBody(d: Draft): PostBody { PostBody(Some("add"), Some(d), None) }

  /** Adding the same draft a second time, at any later time, leaves the bucket as the first add did. */
  lemma AddIdempotent(b: seq<Draft>, d: Draft, now: string, later: string)
    ensures Apply(Apply(b, AddBody(d), now).bucket, AddBody(d), later).bucket == Apply(b, AddBody(d), now).bucket
  {
    var once := Apply(b, AddBody(d), now).bucket;
    if d.key != "" && d.key !in KeySet(b) {
      KeySetCons(Stamp(d, now), b);
      assert d.key in KeySet(once);
    }
  }

  /** Removing a key twice removes no more than removing it once. */
  lemma RemoveIdempotent(b: seq<Draft>, k: string)
    requires k != ""
    ensures var body := PostBody(Some("remove"), None, Some(k));
            var once := Apply(b, body, "").bucket;
            Apply(once, body, "") == Outcome(once, Removed(false, |once|))
  {
    var once := RemoveKey(b, k);
    DropKeysNone(once, {k});
  }

  /** The process-wide `userDraftsStorage`. */
  class DraftStore {
    var buckets: map<string, seq<Draft>>

    /** No bucket holds two drafts with the same key. */
    ghost predicate Valid()
      reads this
    {
      forall id :: id in buckets ==> UniqueKeys(buckets[id])
    }

    constructor()
      ensures buckets == map[]
      ensures Valid()
    {
      buckets := map[];
    }

    /** `userDraftsStorage[userId] || []` */
    function Bucket(id: string): seq<Draft>
      reads this
    {
      if id in buckets then buckets[id] else []
    }

    /** `GET`: the caller's drafts, or none; the store is not changed. */
    method Get(h: Headers) returns (reply: Reply)
      ensures reply.DraftList?
      ensures reply.drafts == (if GetUserId(h) in buckets then buckets[GetUserId(h)] else [])
    {
      var userId := GetUserId(h);
      reply := DraftList(Bucket(userId));
    }

    /**
     * `POST`. A body that is not JSON (`None`) fails with 500 before anything
     * is touched; otherwise the caller's bucket is created when missing, even
     * for a request that is then rejected, and the action is applied to it.
     */
    method Post(h: Headers, body: Option<PostBody>, now: string) returns (reply: Reply)
      requires Valid()
      modifies this
      ensures Valid()
      ensures body.None? ==> buckets == old(buckets) && reply == ServerError(PROCESS_ERROR)
      ensures body.Some? ==>
                var o := Apply(old(Bucket(GetUserId(h))), body.value, now);
                buckets == old(buckets)[GetUserId(h) := o.bucket] && reply == o.reply
      ensures forall id :: id != GetUserId(h) ==>
                (id in buckets <==> id in old(buckets)) && (id in buckets ==> buckets[id] == old(buckets[id]))
    {
      if body.None? {
        return ServerError(PROCESS_ERROR);
      }
      var b := body.value;
      var userId := GetUserId(h);
      if userId !in buckets {
        buckets := buckets[userId := []];
      }
      var current := buckets[userId];
      if IsAction(b, "add") {
        if !HasDraft(b) {
          return BadRequest(DRAFT_REQUIRED);
        }
        var d := b.draft.value;
        if d.key in KeySet(current) {
          return AlreadyExists;
        }
        var stored := Stamp(d, now);
        PrependNewUnique(current, stored);
        buckets := buckets[userId := [stored] + current];
        reply := Added(stored, |buckets[userId]|);
      } else if IsAction(b, "remove") {
        if !Truthy(b.fileKey) {
          return BadRequest(FILE_KEY_REQUIRED);
        }
        var initialLength := |current|;
        DropKeysUnique(current, {b.fileKey.value});
        buckets := buckets[userId := RemoveKey(current, b.fileKey.value)];
        var removed := initialLength > |buckets[userId]|;
        reply := Removed(removed, |buckets[userId]|);
      } else if IsAction(b, "clear") {
        var count := |current|;
        buckets := buckets[userId := []];
        reply := Cleared(count);
      } else {
        reply := BadRequest(INVALID_ACTION);
      }
    }

    /** `DELETE`: the caller's bucket emptied (created empty when missing); the reply names how many drafts it held. */
    method Delete(h: Headers) returns (reply: Reply)
      requires Valid()
      modifies this
      ensures Valid()
      ensures buckets == old(buckets)[GetUserId(h) := []]
      ensures reply == Cleared(|old(Bucket(GetUserId(h)))|)
    {
      var userId := GetUserId(h);
      var count := |Bucket(userId)|;
      buckets := buckets[userId := []];
      reply := Cleared(count);
    }
  }
}
