/**
 * Organisation-scoped resource ids of the form "<org>:<rest>".
 *
 * The helpers SplitOrgResourceID, MakeOrgResourceID and
 * OAPIClientFromExistingOrgResource are defined outside the folder-permission
 * file; this module gives them the "<org>:<rest>" form: the text before the
 * first ':' is the organisation id, the rest is the resource's own id, and an
 * id without ':' has no organisation component.
 */
module OrgResourceId {

  import opened Wrappers
  import opened GoStrconv

  /** The parts before and after the first ':' of `s`, if it has one. */
  function SplitAtColon(s: string): (r: Option<(string, string)>)
    ensures r.None? <==> ':' !in s
    ensures r.Some? ==> s == r.value.0 + ":" + r.value.1 && ':' !in r.value.0
  {
    if s == [] then None
    else if s[0] == ':' then Some(([], s[1..]))
    else
      match SplitAtColon(s[1..])
      case None => None
      case Some((before, after)) => Some(([s[0]] + before, after))
  }

  /** A ':' that follows a colon-free prefix is the first ':'. */
  lemma {:induction false} SplitAtColonOfPrefix(before: string, after: string)
    requires ':' !in before
    ensures SplitAtColon(before + ":" + after) == Some((before, after))
  {
    if before != [] {
      var s := before + ":" + after;
      assert s[0] == before[0] && before[0] != ':';
      assert s[1..] == before[1..] + ":" + after;
      SplitAtColonOfPrefix(before[1..], after);
      assert [before[0]] + before[1..] == before;
    }
  }

  /** SplitOrgResourceID: (organisation id, rest of the id); 0 when there is no organisation part. */
  function SplitOrgResourceID(id: string): (r: (Int64, string))
    ensures ':' !in id ==> r == (0, id)
    ensures ':' in id ==>
      var k := |id| - |r.1| - 1;
      0 <= k && id[k] == ':' && id[k + 1..] == r.1 && ':' !in id[..k]
      && r.0 == ParseInt(id[..k]).value
  {
    match SplitAtColon(id)
    case None => (0, id)
    case Some((org, rest)) =>
      assert id[..|org|] == org && id[|org| + 1..] == rest;
      (ParseInt(org).value, rest)
  }

  /** The id with its organisation prefix, if any, removed. */
  function StripOrg(id: string): string {
    SplitOrgResourceID(id).1
  }

  /** Removing the organisation prefix leaves a prefix-free id unchanged, and removes exactly one added prefix. */
  lemma {:induction false} StripOrgPrefix(org: string, id: string)
    requires ':' !in org && ':' !in id
    ensures StripOrg(id) == id
    ensures StripOrg(org + ":" + id) == id
  {
    SplitAtColonOfPrefix(org, id);
  }

  /** MakeOrgResourceID: "<org>:<id>". */
  function MakeOrgResourceID(orgId: Int64, id: string): string {
    FormatInt(orgId) + ":" + id
  }

  /** SplitOrgResourceID takes apart what MakeOrgResourceID writes, whatever the id holds after the org. */
  lemma {:induction false} SplitOfMade(orgId: Int64, id: string)
    ensures SplitOrgResourceID(MakeOrgResourceID(orgId, id)) == (orgId, id)
  {
    SplitAtColonOfPrefix(FormatInt(orgId), id);
    ParseFormatInt(orgId);
  }

  /**
   * The organisation and folder uid OAPIClientFromExistingOrgResource takes from
   * a stored id: an id without organisation part (organisation 0) falls back to
   * the provider's configured organisation `defaultOrgId`.
   */
  function ExistingOrgResource(id: string, defaultOrgId: Int64): (r: (Int64, string))
    ensures r.1 == StripOrg(id)
    ensures ':' !in id ==> r.0 == defaultOrgId
  {
    var (orgId, rest) := SplitOrgResourceID(id);
    (if orgId == 0 then defaultOrgId else orgId, rest)
  }

  /**
   * A resource id written by MakeOrgResourceID locates the same organisation
   * and resource again; organisation 0 reads as the configured one.
   */
  lemma {:induction false} ExistingOfMade(orgId: Int64, id: string, defaultOrgId: Int64)
    ensures ExistingOrgResource(MakeOrgResourceID(orgId, id), defaultOrgId)
            == (if orgId == 0 then defaultOrgId else orgId, id)
  {
    SplitOfMade(orgId, id);
  }
}
