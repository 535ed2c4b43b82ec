/** The profile form (client/src/pages/auth/ProfileSetupPage.tsx): a full name that must not be
    blank and an optional email address checked against
    `/^[\w-]+(\.[\w-]+)*@([\w-]+\.)+[a-zA-Z]{2,7}$/` before `createProfile` is called. */
module ProfileSetupPage {
  import opened Strings

  /** `\w`: an ASCII letter, digit or underscore. */
  predicate IsWordChar(c: char) {
    'a' <= c <= 'z' || 'A' <= c <= 'Z' || '0' <= c <= '9' || c == '_'
  }

  predicate IsAsciiLetter(c: char) {
    'a' <= c <= 'z' || 'A' <= c <= 'Z'
  }

  /** `[\w-]+`. */
  predicate WordRun(s: string) {
    s != "" && forall i :: 0 <= i < |s| ==> IsWordChar(s[i]) || s[i] == '-'
  }

  /** `[\w-]+(\.[\w-]+)*`: runs of word characters and dashes joined by single dots. */
  predicate LocalPart(s: string) {
    var runs := SplitOn(s, '.');
    forall i :: 0 <= i < |runs| ==> WordRun(runs[i])
  }

  /** `([\w-]+\.)+[a-zA-Z]{2,7}`: at least one run followed by a dot, then two to seven letters. */
  predicate DomainPart(s: string) {
    var runs := SplitOn(s, '.');
    var tld := runs[|runs| - 1];
    && |runs| >= 2
    && (forall i :: 0 <= i < |runs| - 1 ==> WordRun(runs[i]))
    && 2 <= |tld| <= 7
    && forall i :: 0 <= i < |tld| ==> IsAsciiLetter(tld[i])
  }

  /** The whole-string match. Neither part of the expression matches `@`, so a matching address
      has exactly one, with the local part before it and the domain after it. */
  predicate MatchesEmail(s: string) {
    var parts := SplitOn(s, '@');
    |parts| == 2 && LocalPart(parts[0]) && DomainPart(parts[1])
  }

  /** A matching address is a local part, one `@` and a domain. */
  lemma MatchShape(s: string)
    requires MatchesEmail(s)
    ensures var parts := SplitOn(s, '@');
      s == parts[0] + "@" + parts[1] && '@' !in parts[0] && '@' !in parts[1]
  {
    var parts := SplitOn(s, '@');
    JoinSplit(s, '@');
    SplitPiecesHaveNoSeparator(s, '@');
    assert JoinWith(parts, '@') == parts[0] + ['@'] + JoinWith(parts[1..], '@');
  }

  /** Conversely, any local part, `@` and domain match. */
  lemma MatchOfParts(local: string, domain: string)
    requires '@' !in local && '@' !in domain && LocalPart(local) && DomainPart(domain)
    ensures MatchesEmail(local + "@" + domain)
  {
    SplitAfterPiece(local, domain, '@');
    SplitSingleIff(domain, '@');
  }

  /** A domain of one run, a dot and a top-level label. */
  lemma DomainOfLabels(run: string, tld: string)
    requires '.' !in run && '.' !in tld && WordRun(run)
    requires 2 <= |tld| <= 7 && forall i :: 0 <= i < |tld| ==> IsAsciiLetter(tld[i])
    ensures DomainPart(run + "." + tld)
  {
    SplitAfterPiece(run, tld, '.');
    SplitSingleIff(tld, '.');
  }

  /** A plain address `local@run.tld` matches: word characters before the `@`, one dotted
      domain label, and a top-level label of two to seven letters (`john@example.com`). */
  lemma AcceptsPlainAddress(local: string, run: string, tld: string)
    requires WordRun(local) && WordRun(run)
    requires 2 <= |tld| <= 7 && forall i :: 0 <= i < |tld| ==> IsAsciiLetter(tld[i])
    ensures MatchesEmail(local + "@" + run + "." + tld)
  {
    assert '.' !in local && '@' !in local && '.' !in run && '@' !in run && '.' !in tld && '@' !in tld by {
      assert forall i :: 0 <= i < |local| ==> local[i] != '.' && local[i] != '@';
      assert forall i :: 0 <= i < |run| ==> run[i] != '.' && run[i] != '@';
      assert forall i :: 0 <= i < |tld| ==> tld[i] != '.' && tld[i] != '@';
    }
    SplitSingleIff(local, '.');
    DomainOfLabels(run, tld);
    var domain := run + "." + tld;
    assert '@' !in domain;
    MatchOfParts(local, domain);
    assert local + "@" + run + "." + tld == local + "@" + domain;
  }

  /** A domain needs a dot before its letters (`john@example` does not match). */
  lemma RejectsDomainWithoutDot(local: string, domain: string)
    requires '@' !in local && '@' !in domain && '.' !in domain
    ensures !MatchesEmail(local + "@" + domain)
  {
    SplitAfterPiece(local, domain, '@');
    SplitSingleIff(domain, '@');
    SplitSingleIff(domain, '.');
    assert local + "@" + domain == local + ['@'] + domain;
  }

  /** A top-level label of more than seven characters never matches. */
  lemma RejectsLongTopLevel(local: string, run: string, tld: string)
    requires '@' !in local && '@' !in run && '@' !in tld && '.' !in run && '.' !in tld && |tld| > 7
    ensures !MatchesEmail(local + "@" + run + "." + tld)
  {
    var domain := run + "." + tld;
    assert '@' !in domain;
    SplitAfterPiece(local, domain, '@');
    assert local + "@" + run + "." + tld == local + ['@'] + domain;
    SplitSingleIff(domain, '@');
    SplitAfterPiece(run, tld, '.');
    SplitSingleIff(tld, '.');
  }

  /** What `handleCreateProfile` does. */
  datatype Outcome = NameRequired | InvalidEmail | Create(name: string, email: string)

  /** A blank name is refused first; a non-empty email must match; otherwise `createProfile`
      receives the name and email as typed (the name untrimmed). */
  function HandleCreateProfile(name: string, email: string): (r: Outcome)
    ensures r == NameRequired <==> Trim(name) == ""
    ensures r == InvalidEmail <==> Trim(name) != "" && email != "" && !MatchesEmail(email)
    ensures r.Create? ==> r.name == name && r.email == email
  {
    if Trim(name) == "" then NameRequired
    else if email != "" && !MatchesEmail(email) then InvalidEmail
    else Create(name, email)
  }

  /** An empty email never blocks the profile. */
  lemma EmptyEmailAccepted(name: string)
    requires Trim(name) != ""
    ensures HandleCreateProfile(name, "") == Create(name, "")
  {
  }

  /** The button is disabled while loading or while the trimmed name is empty. */
  predicate SubmitDisabled(isLoading: bool, name: string) {
    isLoading || Trim(name) == ""
  }

  /** An enabled button never meets the name check. */
  lemma EnabledSubmitPassesNameCheck(name: string, email: string)
    requires !SubmitDisabled(false, name)
    ensures HandleCreateProfile(name, email) != NameRequired
  {
  }

  /** A name of blanks is refused whatever the email. */
  lemma BlankNameRefused(name: string, email: string)
    requires forall i :: 0 <= i < |name| ==> IsJsWhitespace(name[i])
    ensures HandleCreateProfile(name, email) == NameRequired
  {
    TrimEmptyIff(name);
  }
}
