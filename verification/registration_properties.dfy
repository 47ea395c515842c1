/**
 Properties of the registration flow: the invariant the store keeps, the
 register scenarios for a confirmable and a non-confirmable resource, and
 confirmation with the mailed token.
 */
module RegistrationProperties {
  import opened Wrappers
  import opened Text
  import opened Registration

  /** Registration keeps ids, emails and pending tokens well-formed, given an unused token */
  lemma RegisterPreservesValid(r: Resource, p: Params, gen: Fresh, st: Store)
    requires ValidStore(st)
    requires TokenUnused(st, r.name, gen.confirmationToken)
    ensures ValidStore(Register(r, p, gen, st).store)
  {
  }

  /** Confirmation keeps the store well-formed */
  lemma ConfirmPreservesValid(resource: string, token: string, now: nat, st: Store)
    requires ValidStore(st)
    ensures ValidStore(ConfirmByToken(resource, token, now, st).store)
  {
  }

  /** A confirmation URL outside the safelist is refused before anything is stored or mailed */
  lemma RedirectNotAllowedRejected(r: Resource, p: Params, gen: Fresh, st: Store)
    requires r.confirmable && p.confirmUrl.Some? && p.confirmUrl.value !in r.redirectSafelist
    ensures var s := Register(r, p, gen, st);
            && s.outcome == Failed(GraphqlError(
                 "Redirect to '" + p.confirmUrl.value + "' not allowed.", Some("USER_ERROR"), None))
            && |Table(s.store, r.name)| == |Table(st, r.name)|
            && |s.store.deliveries| == |st.deliveries|
  {
  }

  /** A blank email is refused with exactly one detailed error, nothing stored or mailed */
  lemma BlankEmailRejected(r: Resource, p: Params, gen: Fresh, st: Store)
    requires RedirectAllowed(r, p.confirmUrl)
    requires Blank(p.email)
    ensures var s := Register(r, p, gen, st);
            && s.outcome == Failed(GraphqlError(
                 "User couldn't be registered", Some("USER_ERROR"), Some(["Email can't be blank"])))
            && |Table(s.store, r.name)| == |Table(st, r.name)|
            && |s.store.deliveries| == |st.deliveries|
  {
  }

  /**
   Valid parameters on a confirmable resource add one account and one mail;
   the account is unconfirmed, cannot sign in, gets no credentials, and
   carries the normalised email and the given name.
   */
  lemma ConfirmableRegistration(r: Resource, p: Params, gen: Fresh, st: Store)
    requires r.confirmable && p.confirmUrl.Some? && p.confirmUrl.value in r.redirectSafelist
    requires !Blank(p.email)
    requires !EmailTaken(Table(st, r.name), Normalize(r, EmailField, p.email))
    requires NameField !in r.caseInsensitiveFields
    ensures var s := Register(r, p, gen, st);
            && s.outcome.Registered?
            && |Table(s.store, r.name)| == |Table(st, r.name)| + 1
            && |s.store.deliveries| == |st.deliveries| + 1
            && s.outcome.credentials.None?
            && s.outcome.account.confirmedAt.None?
            && !ActiveForAuthentication(r, s.outcome.account)
            && s.outcome.account == Table(s.store, r.name)[|Table(s.store, r.name)| - 1]
            && s.outcome.account.email == Normalize(r, EmailField, p.email)
            && s.outcome.account.name == p.name
  {
  }

  /** On a resource whose email is case-insensitive, the stored and returned email is lower-cased */
  lemma CaseInsensitiveEmailStored(r: Resource, p: Params, gen: Fresh, st: Store)
    requires EmailField in r.caseInsensitiveFields
    requires Register(r, p, gen, st).outcome.Registered?
    ensures var s := Register(r, p, gen, st);
            && s.outcome.account.email == Downcase(p.email)
            && Table(s.store, r.name)[|Table(s.store, r.name)| - 1].email == Downcase(p.email)
            && forall i :: 0 <= i < |s.outcome.account.email| ==> !IsUpper(s.outcome.account.email[i])
  {
  }

  /** The token in the mail a confirmable registration sends confirms that same account */
  lemma ConfirmWithMailedToken(r: Resource, p: Params, gen: Fresh, st: Store, now: nat)
    requires TokenUnused(st, r.name, gen.confirmationToken)
    requires r.confirmable && Register(r, p, gen, st).outcome.Registered?
    ensures var s := Register(r, p, gen, st);
            var mail := s.store.deliveries[|s.store.deliveries| - 1];
            var c := ConfirmByToken(r.name, mail.token, now, s.store);
            && mail.accountId == s.outcome.account.id
            && c.result.Confirmed?
            && c.result.account.id == s.outcome.account.id
            && c.result.account.email == s.outcome.account.email
            && c.result.account.confirmedAt == Some(now)
            && ActiveForAuthentication(r, c.result.account)
  {
    var s := Register(r, p, gen, st);
    var t := Table(st, r.name);
    var t' := Table(s.store, r.name);
    var mail := s.store.deliveries[|s.store.deliveries| - 1];
    assert mail.token == gen.confirmationToken;
    var c := ConfirmByToken(r.name, mail.token, now, s.store);
    assert t'[|t|].confirmationToken == Some(mail.token);
    var i :| 0 <= i < |t'| && t'[i].confirmationToken == Some(mail.token)
              && c.result.account == t'[i].(confirmedAt := Some(now), confirmationToken := None);
    assert i == |t|;
  }

  /** A spent confirmation token is refused the second time */
  lemma ConfirmTwiceRejected(resource: string, token: string, now: nat, later: nat, st: Store)
    requires ValidStore(st)
    requires ConfirmByToken(resource, token, now, st).result.Confirmed?
    ensures ConfirmByToken(resource, token, later, ConfirmByToken(resource, token, now, st).store).result == InvalidToken
  {
  }

  /**
   A non-confirmable resource signs the new account in: one account more, no
   mail, and credentials whose uid is the stored email and whose client is the
   only key of the account's token map.
   */
  lemma NonConfirmableRegistration(r: Resource, p: Params, gen: Fresh, st: Store)
    requires !r.confirmable
    requires !Blank(p.email)
    requires !EmailTaken(Table(st, r.name), Normalize(r, EmailField, p.email))
    ensures var s := Register(r, p, gen, st);
            && s.outcome.Registered?
            && |Table(s.store, r.name)| == |Table(st, r.name)| + 1
            && s.store.deliveries == st.deliveries
            && s.outcome.credentials.Some?
            && s.outcome.credentials.value.uid == s.outcome.account.email
            && s.outcome.account.tokens.Keys == {s.outcome.credentials.value.client}
            && Table(s.store, r.name)[|Table(s.store, r.name)| - 1] == s.outcome.account
  {
  }

  /** When the email has no upper-case letter, the credentials' uid is exactly the email given */
  lemma NonConfirmableUidIsEmail(r: Resource, p: Params, gen: Fresh, st: Store)
    requires !r.confirmable
    requires forall i :: 0 <= i < |p.email| ==> !IsUpper(p.email[i])
    requires Register(r, p, gen, st).outcome.Registered?
    ensures Register(r, p, gen, st).outcome.credentials == Some(Credentials(gen.accessToken, gen.client, p.email))
  {
    DowncaseOfLowerIsIdentity(p.email);
  }

  /** Emails that differ only in case collide on a resource whose email is case-insensitive */
  lemma CaseVariantEmailRejected(r: Resource, p1: Params, gen1: Fresh, p2: Params, gen2: Fresh, st: Store)
    requires EmailField in r.caseInsensitiveFields
    requires Register(r, p1, gen1, st).outcome.Registered?
    requires RedirectAllowed(r, p2.confirmUrl)
    requires |p1.email| == |p2.email|
    requires forall i :: 0 <= i < |p1.email| ==> SameUpToCase(p1.email[i], p2.email[i])
    ensures var s1 := Register(r, p1, gen1, st);
            var s2 := Register(r, p2, gen2, s1.store);
            && s2.outcome == Failed(GraphqlError(
                 "User couldn't be registered", Some("USER_ERROR"), Some(["Email has already been taken"])))
            && s2.store == s1.store
  {
  }
}
