/**
 * The invite-code screen app/onboarding/join-team.tsx: the length check,
 * the lookup by upper-cased code, the profile update, and when the button is
 * enabled. Remote answers are parameters; toasts become the outcome.
 */
module JoinTeam {
  import opened Common
  import opened Types

  /** What the screen shows, or where it navigates. */
  datatype Outcome = InvalidFormat | NotFound | JoinFailed(message: string) | JoinedTabs(orgName: string)

  /** The remote steps, in order. */
  datatype Step = Lookup(code: string) | SetMembership(userId: string, organizationId: string, role: Role)

  datatype Org = Org(id: string, name: string)

  /** The button's `disabled`. */
  predicate JoinDisabled(loading: bool, code: string) {
    loading || |code| < 6
  }

  class JoinTeamScreen {
    var code: string
    var loading: bool
    var steps: seq<Step>

    constructor()
      ensures code == "" && !loading && steps == []
    {
      code := "";
      loading := false;
      steps := [];
    }

    /** `setCode`, with the input's six-character limit. */
    method SetCode(typed: string)
      modifies this
      ensures code == (if |typed| <= 6 then typed else typed[..6])
      ensures loading == old(loading) && steps == old(steps)
    {
      code := if |typed| <= 6 then typed else typed[..6];
    }

    /** `handleJoin` with the auth user, the lookup's answer and the update's error. */
    method HandleJoin(user: Option<string>, org: Option<Org>, profileError: Option<string>) returns (o: Outcome)
      modifies this
      ensures code == old(code)
      ensures |code| < 6 ==> o == InvalidFormat && steps == old(steps) && loading == old(loading)
      ensures |code| >= 6 ==> !loading
      ensures |code| >= 6 && user.None? ==> o == JoinFailed("No authenticated user") && steps == old(steps)
      ensures |code| >= 6 && user.Some? && org.None? ==>
        o == NotFound && steps == old(steps) + [Lookup(ToUpper(code))]
      ensures |code| >= 6 && user.Some? && org.Some? ==>
        steps == old(steps) + [Lookup(ToUpper(code)), SetMembership(user.value, org.value.id, Staff)] &&
        o == (if profileError.Some? then JoinFailed(profileError.value) else JoinedTabs(org.value.name))
    {
      if |code| < 6 {
        return InvalidFormat;
      }
      loading := true;
      if user.None? {
        o := JoinFailed("No authenticated user");
      } else {
        steps := steps + [Lookup(ToUpper(code))];
        if org.None? {
          o := NotFound;
        } else {
          steps := steps + [SetMembership(user.value, org.value.id, Staff)];
          o := if profileError.Some? then JoinFailed(profileError.value) else JoinedTabs(org.value.name);
        }
      }
      loading := false;
    }
  }

  /** The button is enabled exactly when nothing is running and six characters were typed. */
  lemma EnabledIffFullCode(loading: bool, typed: string)
    ensures !JoinDisabled(loading, if |typed| <= 6 then typed else typed[..6]) <==> !loading && |typed| >= 6
  {
  }
}
