/** The vote endpoint: input checks, the published check, the duplicate check
    on the fingerprint's hash, and the insert of a row that holds only hashes.
    The two tables are the fields of a store; the hash is a fixed function
    nothing is assumed about. */
module VoteRoute {
  import opened Wrappers
  import opened Strings
  import opened Campaigns

  /** The request body as `req.json()` reads it: not JSON at all, or an
      object whose two fields may be missing. */
  datatype Body = NotJson | VoteBody(campaignId: Option<string>, fingerprint: Option<string>)

  /** The body and the three headers the handler reads. */
  datatype Request = Request(
    body: Body,
    forwardedFor: Option<string>,   // x-forwarded-for
    realIp: Option<string>,         // x-real-ip
    userAgent: Option<string>)      // user-agent

  /** A row of the `votes` table as this handler writes it. */
  datatype VoteRow = VoteRow(
    campaignId: string,
    fingerprintHash: string,
    ipHash: string,
    userAgentHash: Option<string>)

  /** The JSON answer: `{success: true}`, or `{error}` with its status. */
  datatype Reply = Success | Failure(status: int, error: string)

  const InvalidJson: string := "Invalid JSON"
  const Required: string := "campaignId and fingerprint are required"
  const NotFound: string := "Campaign not found"
  const AlreadyVoted: string := "Already voted"
  const Anywhere: string := "0.0.0.0"

  /** A header or field that is present and not empty. */
  predicate Truthy(o: Option<string>)
  {
    o.Some? && o.value != []
  }

  /** The client address of `POST`: the trimmed first entry of `x-forwarded-for`, else
      `x-real-ip`, else `0.0.0.0`. */
  function ClientIp(forwardedFor: Option<string>, realIp: Option<string>): (ip: string)
    ensures ip != []
  {
    var first := if forwardedFor.Some? then Trim(Split(forwardedFor.value, ',')[0]) else [];
    if first != [] then first
    else if Truthy(realIp) then realIp.value
    else Anywhere
  }

  /** The first proxy hop is the address: `a, b, c` gives `a` trimmed, whatever
      `x-real-ip` says. */
  lemma {:induction false} ForwardedFirst(first: string, rest: string, realIp: Option<string>)
    requires ',' !in first && Trim(first) != []
    ensures ClientIp(Some(first + "," + rest), realIp) == Trim(first)
    ensures ClientIp(Some(first), realIp) == Trim(first)
  {
    SplitAppend(first, ',', rest);
    SplitNoSeparator(first, ',');
  }

  /** With no usable first hop, `x-real-ip` is the address when it is set, and
      `0.0.0.0` otherwise; the address taken from `x-forwarded-for` never holds
      a comma. */
  lemma {:induction false} IpFallback(forwardedFor: Option<string>, realIp: Option<string>)
    ensures var first := if forwardedFor.Some? then Trim(Split(forwardedFor.value, ',')[0]) else [];
      && (first == [] && Truthy(realIp) ==> ClientIp(forwardedFor, realIp) == realIp.value)
      && (first == [] && !Truthy(realIp) ==> ClientIp(forwardedFor, realIp) == Anywhere)
      && (first != [] ==> ',' !in ClientIp(forwardedFor, realIp))
  {
    if forwardedFor.Some? {
      var piece := Split(forwardedFor.value, ',')[0];
      var t := Trim(piece);
      TrimInside(piece);
      assert forall k :: 0 <= k < |t| ==> t[k] in piece;
    }
  }

  /** How many rows hold this campaign and this fingerprint hash. */
  function Matches(votes: seq<VoteRow>, campaignId: string, fingerprintHash: string): (n: nat)
    ensures n <= |votes|
    ensures n == 0 <==> forall i :: 0 <= i < |votes| ==>
      !(votes[i].campaignId == campaignId && votes[i].fingerprintHash == fingerprintHash)
  {
    if votes == [] then 0
    else
      var last := votes[|votes| - 1];
      var init := votes[..|votes| - 1];
      assert forall i :: 0 <= i < |init| ==> init[i] == votes[i];
      Matches(init, campaignId, fingerprintHash)
        + (if last.campaignId == campaignId && last.fingerprintHash == fingerprintHash then 1 else 0)
  }

  /** `maybeSingle()` on the duplicate check finds a row only when exactly one
      row matches; with two or more it fails, and the handler reads the
      failure as "no vote yet". */
  predicate Existing(votes: seq<VoteRow>, campaignId: string, fingerprintHash: string)
  {
    Matches(votes, campaignId, fingerprintHash) == 1
  }

  /** No two rows share a campaign and a fingerprint hash. */
  predicate AtMostOne(votes: seq<VoteRow>)
  {
    forall i, j :: 0 <= i < j < |votes| ==>
      !(votes[i].campaignId == votes[j].campaignId && votes[i].fingerprintHash == votes[j].fingerprintHash)
  }

  /** The campaign the published-campaign lookup of `POST` finds: the id is
      there and its status is `published`. */
  predicate IsPublished(campaigns: map<string, string>, campaignId: string)
  {
    campaignId in campaigns && campaigns[campaignId] == Published
  }

  /** The row `POST` inserts: it holds the campaign id and three hashes, the last one
      `null` when the user agent is empty. */
  function NewRow(hash: string -> string, campaignId: string, fingerprint: string, req: Request): (row: VoteRow)
    ensures row.campaignId == campaignId
    ensures row.fingerprintHash == hash(fingerprint)
    ensures row.ipHash == hash(ClientIp(req.forwardedFor, req.realIp))
    ensures row.userAgentHash.Some? <==> Truthy(req.userAgent)
    ensures row.userAgentHash.Some? ==> row.userAgentHash.value == hash(req.userAgent.value)
  {
    VoteRow(campaignId, hash(fingerprint), hash(ClientIp(req.forwardedFor, req.realIp)),
            if Truthy(req.userAgent) then Some(hash(req.userAgent.value)) else None)
  }

  /** The body carries both fields, non-empty. */
  predicate WellFormed(body: Body)
  {
    body.VoteBody? && Truthy(body.campaignId) && Truthy(body.fingerprint)
  }

  /** The answer of the handler to a request, given the two tables and the
      outcome of the insert, in the order the handler checks. */
  function Verdict(campaigns: map<string, string>, votes: seq<VoteRow>, hash: string -> string,
                   req: Request, insertError: Option<string>): (r: Reply)
    ensures req.body.NotJson? ==> r == Failure(400, InvalidJson)
    ensures req.body.VoteBody? && !WellFormed(req.body) ==> r == Failure(400, Required)
    ensures WellFormed(req.body) ==>
      var id := req.body.campaignId.value;
      var fh := hash(req.body.fingerprint.value);
      && (!IsPublished(campaigns, id) ==> r == Failure(404, NotFound))
      && (IsPublished(campaigns, id) && Existing(votes, id, fh) ==> r == Failure(409, AlreadyVoted))
      && (IsPublished(campaigns, id) && !Existing(votes, id, fh) && insertError.Some? ==>
            r == Failure(500, insertError.value))
      && (IsPublished(campaigns, id) && !Existing(votes, id, fh) && insertError.None? ==> r == Success)
    ensures r == Success ==> WellFormed(req.body)
  {
    match req.body
    case NotJson => Failure(400, InvalidJson)
    case VoteBody(campaignId, fingerprint) =>
      if !Truthy(campaignId) || !Truthy(fingerprint) then Failure(400, Required)
      else if !IsPublished(campaigns, campaignId.value) then Failure(404, NotFound)
      else if Existing(votes, campaignId.value, hash(fingerprint.value)) then Failure(409, AlreadyVoted)
      else if insertError.Some? then Failure(500, insertError.value)
      else Success
  }

  /** The `votes` table after the request: one new row exactly when the
      answer is a success. */
  function VotesAfter(campaigns: map<string, string>, votes: seq<VoteRow>, hash: string -> string,
                      req: Request, insertError: Option<string>): (r: seq<VoteRow>)
    ensures Verdict(campaigns, votes, hash, req, insertError) != Success ==> r == votes
    ensures Verdict(campaigns, votes, hash, req, insertError) == Success ==>
      r == votes + [NewRow(hash, req.body.campaignId.value, req.body.fingerprint.value, req)]
  {
    if Verdict(campaigns, votes, hash, req, insertError) == Success then
      votes + [NewRow(hash, req.body.campaignId.value, req.body.fingerprint.value, req)]
    else votes
  }

  /** The two tables the handler reads and writes. */
  class VoteStore {
    const hash: string -> string
    var campaigns: map<string, string>   // id to status
    var votes: seq<VoteRow>

    constructor (hash: string -> string, campaigns: map<string, string>, votes: seq<VoteRow>)
      ensures this.hash == hash && this.campaigns == campaigns && this.votes == votes
    {
      this.hash := hash;
      this.campaigns := campaigns;
      this.votes := votes;
    }

    /** `POST /api/vote`. `insertError` is what the datastore answers to the
        insert; a failed insert writes nothing. */
    method Post(req: Request, insertError: Option<string>) returns (reply: Reply)
      modifies this
      ensures campaigns == old(campaigns)
      ensures reply == Verdict(campaigns, old(votes), hash, req, insertError)
      ensures votes == VotesAfter(campaigns, old(votes), hash, req, insertError)
    {
      if req.body.NotJson? {
        return Failure(400, InvalidJson);
      }
      var campaignId := req.body.campaignId;
      var fingerprint := req.body.fingerprint;
      if !Truthy(campaignId) || !Truthy(fingerprint) {
        return Failure(400, Required);
      }
      if !(campaignId.value in campaigns && campaigns[campaignId.value] == Published) {
        return Failure(404, NotFound);
      }
      var fingerprintHash := hash(fingerprint.value);
      if Matches(votes, campaignId.value, fingerprintHash) == 1 {
        return Failure(409, AlreadyVoted);
      }
      var ip := ClientIp(req.forwardedFor, req.realIp);
      var ua := if Truthy(req.userAgent) then req.userAgent.value else "";
      var row := VoteRow(campaignId.value, fingerprintHash, hash(ip), if ua != [] then Some(hash(ua)) else None);
      if insertError.Some? {
        return Failure(500, insertError.value);
      }
      votes := votes + [row];
      return Success;
    }
  }

  /** One row more for a pair that had none. */
  lemma {:induction false} MatchesAppend(votes: seq<VoteRow>, row: VoteRow, campaignId: string, fingerprintHash: string)
    ensures Matches(votes + [row], campaignId, fingerprintHash)
         == Matches(votes, campaignId, fingerprintHash)
            + (if row.campaignId == campaignId && row.fingerprintHash == fingerprintHash then 1 else 0)
  {
    assert (votes + [row])[..|votes|] == votes;
  }

  /** In a table with at most one row per pair, the check finds a vote
      exactly when there is one. */
  lemma {:induction false} ExistingIsAny(votes: seq<VoteRow>, campaignId: string, fingerprintHash: string)
    requires AtMostOne(votes)
    ensures Existing(votes, campaignId, fingerprintHash)
        <==> exists i :: 0 <= i < |votes| && votes[i].campaignId == campaignId && votes[i].fingerprintHash == fingerprintHash
  {
    if votes != [] {
      var init := votes[..|votes| - 1];
      var last := votes[|votes| - 1];
      assert AtMostOne(init);
      ExistingIsAny(init, campaignId, fingerprintHash);
      assert votes == init + [last];
      MatchesAppend(init, last, campaignId, fingerprintHash);
      if last.campaignId == campaignId && last.fingerprintHash == fingerprintHash {
        assert Matches(init, campaignId, fingerprintHash) == 0;
      } else {
        forall i | 0 <= i < |votes| && votes[i].campaignId == campaignId && votes[i].fingerprintHash == fingerprintHash
          ensures i < |init| && init[i] == votes[i]
        {
        }
      }
    }
  }

  /** The handler keeps the table at one row per pair: it inserts only for a
      pair with no row. */
  lemma {:induction false} KeepsAtMostOne(campaigns: map<string, string>, votes: seq<VoteRow>, hash: string -> string,
                       req: Request, insertError: Option<string>)
    requires AtMostOne(votes)
    ensures AtMostOne(VotesAfter(campaigns, votes, hash, req, insertError))
  {
    if Verdict(campaigns, votes, hash, req, insertError) == Success {
      var row := NewRow(hash, req.body.campaignId.value, req.body.fingerprint.value, req);
      ExistingIsAny(votes, row.campaignId, row.fingerprintHash);
      var after := votes + [row];
      forall i, j | 0 <= i < j < |after|
        ensures !(after[i].campaignId == after[j].campaignId && after[i].fingerprintHash == after[j].fingerprintHash)
      {
        if j == |votes| {
          assert after[i] == votes[i];
        } else {
          assert after[i] == votes[i] && after[j] == votes[j];
        }
      }
    }
  }

  /** The same campaign and fingerprint twice in a row: a success, then 409
      with nothing more inserted. */
  lemma {:induction false} SecondVoteConflicts(campaigns: map<string, string>, votes: seq<VoteRow>, hash: string -> string,
                            req: Request, again: Request, insertError: Option<string>, error2: Option<string>)
    requires AtMostOne(votes)
    requires Verdict(campaigns, votes, hash, req, insertError) == Success
    requires again.body == req.body
    ensures var after := VotesAfter(campaigns, votes, hash, req, insertError);
      && Verdict(campaigns, after, hash, again, error2) == Failure(409, AlreadyVoted)
      && VotesAfter(campaigns, after, hash, again, error2) == after
  {
    var row := NewRow(hash, req.body.campaignId.value, req.body.fingerprint.value, req);
    ExistingIsAny(votes, row.campaignId, row.fingerprintHash);
    MatchesAppend(votes, row, row.campaignId, row.fingerprintHash);
  }

  /** A vote under another fingerprint hash for any campaign leaves the
      answer to this request as it was. */
  lemma {:induction false} OtherFingerprint(campaigns: map<string, string>, votes: seq<VoteRow>, hash: string -> string,
                         other: Request, otherError: Option<string>, req: Request, insertError: Option<string>)
    requires WellFormed(other.body) && WellFormed(req.body)
    requires hash(other.body.fingerprint.value) != hash(req.body.fingerprint.value)
    ensures Verdict(campaigns, VotesAfter(campaigns, votes, hash, other, otherError), hash, req, insertError)
         == Verdict(campaigns, votes, hash, req, insertError)
  {
    var after := VotesAfter(campaigns, votes, hash, other, otherError);
    if after != votes {
      var row := NewRow(hash, other.body.campaignId.value, other.body.fingerprint.value, other);
      MatchesAppend(votes, row, req.body.campaignId.value, hash(req.body.fingerprint.value));
    }
  }

  /** Input errors are answered before any table is read: the answer to a
      malformed body does not depend on either table. */
  lemma {:induction false} ValidationFirst(c1: map<string, string>, v1: seq<VoteRow>, c2: map<string, string>, v2: seq<VoteRow>,
                        hash: string -> string, req: Request, e1: Option<string>, e2: Option<string>)
    requires !WellFormed(req.body)
    ensures Verdict(c1, v1, hash, req, e1) == Verdict(c2, v2, hash, req, e2)
    ensures Verdict(c1, v1, hash, req, e1).status == 400
  {
  }

  /** A campaign that does not exist and one that is not published get the
      same answer, and neither request writes a row. */
  lemma {:induction false} NotFoundAlike(campaigns: map<string, string>, votes: seq<VoteRow>, hash: string -> string,
                      req: Request, insertError: Option<string>)
    requires WellFormed(req.body)
    requires req.body.campaignId.value !in campaigns || campaigns[req.body.campaignId.value] != Published
    ensures Verdict(campaigns, votes, hash, req, insertError) == Failure(404, NotFound)
    ensures VotesAfter(campaigns, votes, hash, req, insertError) == votes
  {
  }
}
