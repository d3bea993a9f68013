/**
 * The session tokens the two launches issue, as the guards of the tool's API
 * see them once decoded: which sessions are instructors or administrators,
 * and which can pass grades back.
 *
 * Signing and decoding a token are not part of this model; a token decodes
 * to the claims it was issued for, plus its `exp` and `iat` times.
 */
module Sessions {
  import opened Wrappers
  import opened JsonValues
  import Dicts
  import Http
  import Models
  import Lti13Routes
  import LtiRoutes
  import Dependencies
  import ToolRoutes

  /** The payload of a session token issued by `create_access_token` for `claims`. */
  function SessionPayload(claims: Dicts.Items<Json>, exp: int, iat: int): (p: Object)
    ensures "exp" in p && "iat" in p
  {
    Dicts.ToMap(claims)["exp" := JInt(exp)]["iat" := JInt(iat)]
  }

  /** Every claim other than `exp` and `iat` is in the payload exactly as issued. */
  lemma PayloadClaim(claims: Dicts.Items<Json>, exp: int, iat: int, k: string, v: Json)
    requires k != "exp" && k != "iat"
    requires Dicts.Lookup(claims, k) == Some(v)
    ensures var p := SessionPayload(claims, exp, iat);
      k in p && p[k] == v
  {
  }

  /** A claim that was not issued is not in the payload, unless it is `exp` or `iat`. */
  lemma PayloadLacks(claims: Dicts.Items<Json>, exp: int, iat: int, k: string)
    requires k != "exp" && k != "iat"
    requires !Dicts.HasKey(claims, k)
    ensures k !in SessionPayload(claims, exp, iat)
  {
  }

  /** No role IRI is the bare word `Administrator`. */
  lemma IrisAreNotBareWords(roles: seq<Models.LtiRole>)
    ensures JStr("Administrator") !in Models.RoleValues(roles).items
  {
    var items := Models.RoleValues(roles).items;
    forall i | 0 <= i < |items| ensures items[i] != JStr("Administrator") {
      assert |roles[i].Iri()| >= |Models.LisV2| > |"Administrator"|;
    }
  }

  /** The roles claim of a 1.3 session. */
  lemma Lti13RolesClaim(u: Models.Lti13User)
    ensures Dicts.Lookup(Lti13Routes.SessionClaims(u), "roles") == Some(Models.RoleValues(u.roles))
  {
    var d := Lti13Routes.SessionClaims(u);
    assert |d[0].0| == 7 && |d[1].0| == 10 && |d[2].0| == 16;
    assert d[3..] == [d[3], d[4]];
    assert Dicts.Lookup(d, "roles") == Dicts.Lookup(d[1..], "roles") == Dicts.Lookup(d[2..], "roles");
    assert d[2..][1..] == d[3..];
  }

  /**
   * A payload with both required claims and a roles claim of role IRIs is a
   * session user, and the instructor and administrator guards both admit it
   * exactly when its `is_instructor` is truthy.
   */
  lemma GuardsOver(p: Object, roles: seq<Models.LtiRole>)
    requires "user_id" in p && "resource_link_id" in p
    requires "roles" in p && p["roles"] == Models.RoleValues(roles)
    ensures Dependencies.CurrentUser(Dependencies.Decoded(p)) == Http.Done(p)
    ensures Dependencies.RequireInstructor(p).Done? <==> TruthyAt(p, "is_instructor")
    ensures Dependencies.RequireAdmin(p).Done? <==> TruthyAt(p, "is_instructor")
    ensures !TruthyAt(p, "is_instructor") ==>
      && Dependencies.RequireInstructor(p) == Http.Refused(403, "Instructor privileges required")
      && Dependencies.RequireAdmin(p) == Http.Refused(403, "Administrator privileges required")
  {
    Dependencies.CurrentUserCases(Dependencies.Decoded(p));
    IrisAreNotBareWords(roles);
  }

  /** A 1.3 session says nothing about being an instructor or about outcomes. */
  lemma Lti13ClaimsLack(u: Models.Lti13User)
    ensures !Dicts.HasKey(Lti13Routes.SessionClaims(u), "is_instructor")
    ensures !Dicts.HasKey(Lti13Routes.SessionClaims(u), "lis_outcome_service_url")
  {
    Lti13Routes.SessionClaimsFields(u);
    var ks := Dicts.Keys(Lti13Routes.SessionClaims(u));
    assert forall i :: 0 <= i < 5 ==> |ks[i]| != |"lis_outcome_service_url"|;
  }

  /**
   * A 1.3 session is a valid session user, but it carries no
   * `is_instructor` and names its roles by IRI, so it is refused by both the
   * instructor and the administrator guards, whatever the roles; and it has
   * no outcome information, so it can never pass grades back.
   */
  lemma Lti13SessionGuards(u: Models.Lti13User, exp: int, iat: int)
    ensures var p := SessionPayload(Lti13Routes.SessionClaims(u), exp, iat);
      && Dependencies.CurrentUser(Dependencies.Decoded(p)) == Http.Done(p)
      && Dependencies.RequireInstructor(p) == Http.Refused(403, "Instructor privileges required")
      && Dependencies.RequireAdmin(p) == Http.Refused(403, "Administrator privileges required")
      && !ToolRoutes.PassbackAvailable(p)
  {
    var claims := Lti13Routes.SessionClaims(u);
    var p := SessionPayload(claims, exp, iat);
    assert "user_id" in p && "resource_link_id" in p by {
      Lti13Routes.SessionClaimsFields(u);
      PayloadClaim(claims, exp, iat, "user_id", JStr(u.userId));
      PayloadClaim(claims, exp, iat, "resource_link_id", JStr(u.resourceLinkId));
    }
    assert "roles" in p && p["roles"] == Models.RoleValues(u.roles) by {
      Lti13RolesClaim(u);
      PayloadClaim(claims, exp, iat, "roles", Models.RoleValues(u.roles));
    }
    assert "is_instructor" !in p && "lis_outcome_service_url" !in p by {
      Lti13ClaimsLack(u);
      PayloadLacks(claims, exp, iat, "is_instructor");
      PayloadLacks(claims, exp, iat, "lis_outcome_service_url");
    }
    GuardsOver(p, u.roles);
  }

  /** The value a form field gives a claim is truthy exactly when the field is there and not empty. */
  lemma FormValueTruthy(form: map<string, string>, k: string)
    ensures Truthy(LtiRoutes.FormValue(form, k)) <==> k in form && form[k] != []
  {
  }

  /**
   * A legacy session (with `is_instructor` derived from the roles) passes the
   * instructor guard exactly when the user is an instructor; the
   * administrator guard admits exactly the same users, since role IRIs are
   * never the bare word `Administrator`; and grades can be passed back
   * exactly when the launch form had a non-empty outcome service URL and
   * result sourcedid.
   */
  lemma LegacySessionGuards(u: Models.LtiUser, form: map<string, string>, exp: int, iat: int)
    ensures var p := SessionPayload(LtiRoutes.LegacyClaims(u, form), exp, iat);
      && Dependencies.CurrentUser(Dependencies.Decoded(p)) == Http.Done(p)
      && (Dependencies.RequireInstructor(p).Done? <==> LtiRoutes.IsInstructor(u))
      && (Dependencies.RequireAdmin(p).Done? <==> LtiRoutes.IsInstructor(u))
      && (ToolRoutes.PassbackAvailable(p) <==>
            && "lis_outcome_service_url" in form && form["lis_outcome_service_url"] != []
            && "lis_result_sourcedid" in form && form["lis_result_sourcedid"] != [])
  {
    var claims := LtiRoutes.LegacyClaims(u, form);
    var p := SessionPayload(claims, exp, iat);
    LtiRoutes.LegacyClaimsFields(u, form);
    assert "user_id" in p && "resource_link_id" in p by {
      PayloadClaim(claims, exp, iat, "user_id", JStr(u.userId));
      PayloadClaim(claims, exp, iat, "resource_link_id", JStr(u.resourceLinkId));
    }
    assert "roles" in p && p["roles"] == Models.RoleValues(u.roles) by {
      PayloadClaim(claims, exp, iat, "roles", Models.RoleValues(u.roles));
    }
    assert TruthyAt(p, "is_instructor") <==> LtiRoutes.IsInstructor(u) by {
      PayloadClaim(claims, exp, iat, "is_instructor", JBool(LtiRoutes.IsInstructor(u)));
    }
    assert TruthyAt(p, "lis_outcome_service_url") <==>
             "lis_outcome_service_url" in form && form["lis_outcome_service_url"] != [] by {
      PayloadClaim(claims, exp, iat, "lis_outcome_service_url", LtiRoutes.FormValue(form, "lis_outcome_service_url"));
      FormValueTruthy(form, "lis_outcome_service_url");
    }
    assert TruthyAt(p, "lis_result_sourcedid") <==>
             "lis_result_sourcedid" in form && form["lis_result_sourcedid"] != [] by {
      PayloadClaim(claims, exp, iat, "lis_result_sourcedid", LtiRoutes.FormValue(form, "lis_result_sourcedid"));
      FormValueTruthy(form, "lis_result_sourcedid");
    }
    GuardsOver(p, u.roles);
  }
}
