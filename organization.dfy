/**
 * hooks/useOrganization.ts: creating an organisation (its creator becomes
 * admin) and joining one by invite code (the joiner becomes staff). Every
 * remote call is recorded in a request log whose answers are parameters; the
 * random invite code is a parameter too.
 */
module Organization {
  import opened Common
  import opened Types

  /** The requests the hook sends, in order. */
  datatype Request =
    | InsertOrganization(name: string, inviteCode: string)
    | FindByInviteCode(code: string)
    | UpdateProfile(userId: string, organizationId: string, role: Role)

  /** A call either throws with a message or returns the organisation's id. */
  datatype Result = Threw(message: string) | Returned(organizationId: string)

  class OrganizationHook {
    var loading: bool
    var requests: seq<Request>

    constructor()
      ensures !loading && requests == []
    {
      loading := false;
      requests := [];
    }

    /**
     * `createOrganization(name)` with the auth user, the generated code, the
     * insert's answer (the new id, or None on error, with `orgError` its
     * message) and the profile update's error.
     */
    method CreateOrganization(name: string, user: Option<string>, inviteCode: string,
                              inserted: Option<string>, orgError: string, profileError: Option<string>)
      returns (r: Result)
      modifies this
      ensures IsBlank(name) ==> r == Threw("Name is required") && loading == old(loading) && requests == old(requests)
      ensures !IsBlank(name) ==> !loading
      ensures !IsBlank(name) && user.None? ==> r == Threw("No authenticated user") && requests == old(requests)
      ensures !IsBlank(name) && user.Some? && inserted.None? ==>
        r == Threw(orgError) && requests == old(requests) + [InsertOrganization(Trim(name), inviteCode)]
      ensures !IsBlank(name) && user.Some? && inserted.Some? ==>
        requests == old(requests) + [InsertOrganization(Trim(name), inviteCode),
                                     UpdateProfile(user.value, inserted.value, Admin)] &&
        r == (if profileError.Some? then Threw(profileError.value) else Returned(inserted.value))
    {
      if Trim(name) == "" {
        return Threw("Name is required");
      }
      loading := true;
      if user.None? {
        r := Threw("No authenticated user");
      } else {
        requests := requests + [InsertOrganization(Trim(name), inviteCode)];
        if inserted.None? {
          r := Threw(orgError);
        } else {
          requests := requests + [UpdateProfile(user.value, inserted.value, Admin)];
          r := if profileError.Some? then Threw(profileError.value) else Returned(inserted.value);
        }
      }
      loading := false;
    }

    /**
     * `joinOrganization(code)` with the auth user, the lookup's answer (the
     * organisation's id, None when not found or on error) and the profile
     * update's error.
     */
    method JoinOrganization(code: string, user: Option<string>, found: Option<string>, profileError: Option<string>)
      returns (r: Result)
      modifies this
      ensures |code| < 6 ==> r == Threw("Invalid code") && loading == old(loading) && requests == old(requests)
      ensures |code| >= 6 ==> !loading
      ensures |code| >= 6 && user.None? ==> r == Threw("No authenticated user") && requests == old(requests)
      ensures |code| >= 6 && user.Some? && found.None? ==>
        r == Threw("Invalid invite code") && requests == old(requests) + [FindByInviteCode(ToUpper(code))]
      ensures |code| >= 6 && user.Some? && found.Some? ==>
        requests == old(requests) + [FindByInviteCode(ToUpper(code)), UpdateProfile(user.value, found.value, Staff)] &&
        r == (if profileError.Some? then Threw(profileError.value) else Returned(found.value))
    {
      if |code| < 6 {
        return Threw("Invalid code");
      }
      loading := true;
      if user.None? {
        r := Threw("No authenticated user");
      } else {
        requests := requests + [FindByInviteCode(ToUpper(code))];
        if found.None? {
          r := Threw("Invalid invite code");
        } else {
          requests := requests + [UpdateProfile(user.value, found.value, Staff)];
          r := if profileError.Some? then Threw(profileError.value) else Returned(found.value);
        }
      }
      loading := false;
    }
  }

  /** The lookup is case-insensitive on the typed code: codes that differ only in case look up the same value. */
  lemma LookupIgnoresCase(code: string)
    ensures ToUpper(ToLower(code)) == ToUpper(code)
  {
    assert forall i :: 0 <= i < |code| ==> UpperChar(LowerChar(code[i])) == UpperChar(code[i]);
  }
}
