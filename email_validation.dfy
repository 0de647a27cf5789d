/**
 * The email validator: `re.match` of the pattern
 *   ^[a-zA-Z0-9._%+-]+@[a-zA-Z0-9.-]+\.(yahoo|gmail|outlook)\.com$
 * as a string predicate. `re.match` anchors at the start; Python's `$`
 * matches at the very end and also just before one final newline.
 * `ValidateEmail` decides the match by locating the '@' and the provider
 * suffix; `RegexMatches` states it as the existence of a split into local
 * part, domain and provider, and `ValidateEmailMatchesRegex` proves the two
 * agree on every string.
 */
module EmailValidation {

  predicate IsLetterOrDigit(c: char)
  {
    'a' <= c <= 'z' || 'A' <= c <= 'Z' || '0' <= c <= '9'
  }

  /** The class [a-zA-Z0-9._%+-]. */
  predicate IsLocalChar(c: char)
  {
    IsLetterOrDigit(c) || c == '.' || c == '_' || c == '%' || c == '+' || c == '-'
  }

  /** The class [a-zA-Z0-9.-]. */
  predicate IsDomainChar(c: char)
  {
    IsLetterOrDigit(c) || c == '.' || c == '-'
  }

  /** One or more characters of the local-part class. */
  predicate IsLocalPart(s: string)
  {
    |s| > 0 && forall i :: 0 <= i < |s| ==> IsLocalChar(s[i])
  }

  /** One or more characters of the domain class. */
  predicate IsDomainPart(s: string)
  {
    |s| > 0 && forall i :: 0 <= i < |s| ==> IsDomainChar(s[i])
  }

  /** The alternation (yahoo|gmail|outlook), matched case-sensitively. */
  predicate IsProvider(p: string)
  {
    p == "yahoo" || p == "gmail" || p == "outlook"
  }

  /** The literal tail `\.(provider)\.com` of the pattern. */
  function ProviderSuffix(provider: string): string
  {
    "." + provider + ".com"
  }

  /** `r` is a domain followed by the provider suffix. */
  predicate HasProviderSuffix(r: string, provider: string)
  {
    var k := |provider| + 5;
    |r| > k && r[|r| - k..] == ProviderSuffix(provider) && IsDomainPart(r[..|r| - k])
  }

  /** The pattern without the `$`, matched against the whole of `t`. */
  predicate MatchesWhole(t: string)
  {
    exists i | 0 <= i < |t| ::
      t[i] == '@' && IsLocalPart(t[..i])
      && (HasProviderSuffix(t[i + 1..], "yahoo")
          || HasProviderSuffix(t[i + 1..], "gmail")
          || HasProviderSuffix(t[i + 1..], "outlook"))
  }

  /** True when the pattern matches the whole string or the string without one final newline. */
  function ValidateEmail(email: string): bool
  {
    MatchesWhole(email)
    || (|email| > 0 && email[|email| - 1] == '\n' && MatchesWhole(email[..|email| - 1]))
  }

  /** The text the pattern spells for a given local part, domain and provider. */
  function Spelled(local: string, domain: string, provider: string): string
  {
    local + "@" + (domain + ProviderSuffix(provider))
  }

  ghost predicate IsSplit(t: string, local: string, domain: string, provider: string)
  {
    t == Spelled(local, domain, provider) && IsLocalPart(local) && IsDomainPart(domain) && IsProvider(provider)
  }

  ghost predicate HasSplit(t: string)
  {
    exists local, domain, provider :: IsSplit(t, local, domain, provider)
  }

  /** The regular expression's language, stated as a split, with the optional final newline of `$`. */
  ghost predicate RegexMatches(email: string)
  {
    HasSplit(email) || (|email| > 0 && email[|email| - 1] == '\n' && HasSplit(email[..|email| - 1]))
  }

  lemma SplitFromMatch(t: string, i: int, provider: string)
    requires 0 <= i < |t| && t[i] == '@' && IsLocalPart(t[..i])
    requires IsProvider(provider) && HasProviderSuffix(t[i + 1..], provider)
    ensures HasSplit(t)
  {
    var r := t[i + 1..];
    var k := |provider| + 5;
    var domain := r[..|r| - k];
    assert r == domain + r[|r| - k..];
    assert t == t[..i] + [t[i]] + r;
    assert IsSplit(t, t[..i], domain, provider);
  }

  lemma MatchFromSplit(t: string, local: string, domain: string, provider: string)
    requires IsSplit(t, local, domain, provider)
    ensures MatchesWhole(t)
  {
    var i := |local|;
    var r := domain + ProviderSuffix(provider);
    assert t[i] == '@' && t[..i] == local && t[i + 1..] == r;
    var k := |provider| + 5;
    assert r[|r| - k..] == ProviderSuffix(provider);
    assert r[..|r| - k] == domain;
    assert HasProviderSuffix(t[i + 1..], provider);
  }

  lemma MatchesWholeIffSplit(t: string)
    ensures MatchesWhole(t) <==> HasSplit(t)
  {
    if MatchesWhole(t) {
      var i :| 0 <= i < |t| && t[i] == '@' && IsLocalPart(t[..i])
        && (HasProviderSuffix(t[i + 1..], "yahoo")
            || HasProviderSuffix(t[i + 1..], "gmail")
            || HasProviderSuffix(t[i + 1..], "outlook"));
      if HasProviderSuffix(t[i + 1..], "yahoo") {
        SplitFromMatch(t, i, "yahoo");
      } else if HasProviderSuffix(t[i + 1..], "gmail") {
        SplitFromMatch(t, i, "gmail");
      } else {
        SplitFromMatch(t, i, "outlook");
      }
    }
    if HasSplit(t) {
      var local, domain, provider :| IsSplit(t, local, domain, provider);
      MatchFromSplit(t, local, domain, provider);
    }
  }

  /** The validator accepts exactly the strings in the regular expression's language. */
  lemma ValidateEmailMatchesRegex(email: string)
    ensures ValidateEmail(email) <==> RegexMatches(email)
  {
    MatchesWholeIffSplit(email);
    if |email| > 0 {
      MatchesWholeIffSplit(email[..|email| - 1]);
    }
  }

  lemma LocalPartHasNoAt(local: string)
    requires IsLocalPart(local)
    ensures '@' !in local
  {
    forall i | 0 <= i < |local| ensures local[i] != '@' {
      assert IsLocalChar(local[i]);
    }
  }

  /** Neither the domain class nor the provider suffix admits '@'. */
  lemma TailHasNoAt(domain: string, provider: string)
    requires IsDomainPart(domain) && IsProvider(provider)
    ensures '@' !in domain + ProviderSuffix(provider)
  {
    forall i | 0 <= i < |domain| ensures domain[i] != '@' {
      assert IsDomainChar(domain[i]);
    }
    assert '@' !in ProviderSuffix(provider);
  }

  lemma SplitHasOneAt(t: string, local: string, domain: string, provider: string)
    requires IsSplit(t, local, domain, provider)
    ensures multiset(t)['@'] == 1
  {
    LocalPartHasNoAt(local);
    TailHasNoAt(domain, provider);
    var tail := domain + ProviderSuffix(provider);
    assert multiset(t) == multiset(local) + multiset("@") + multiset(tail);
  }

  lemma HasSplitHasOneAt(t: string)
    requires HasSplit(t)
    ensures multiset(t)['@'] == 1
  {
    var local, domain, provider :| IsSplit(t, local, domain, provider);
    SplitHasOneAt(t, local, domain, provider);
  }

  lemma NewlineSplitHasOneAt(t: string)
    requires HasSplit(t)
    ensures multiset(t + "\n")['@'] == 1
  {
    HasSplitHasOneAt(t);
    assert multiset(t + "\n") == multiset(t) + multiset("\n");
  }

  lemma MatchHasOneAt(email: string)
    requires RegexMatches(email)
    ensures multiset(email)['@'] == 1
  {
    if |email| > 0 && email[|email| - 1] == '\n' && HasSplit(email[..|email| - 1]) {
      var t := email[..|email| - 1];
      assert email == t + "\n";
      NewlineSplitHasOneAt(t);
    } else {
      HasSplitHasOneAt(email);
    }
  }

  /**
   * Every accepted string holds exactly one '@': neither character class
   * admits it. In particular a string without '@' is rejected.
   */
  lemma AcceptedHasOneAt(email: string)
    ensures ValidateEmail(email) ==> multiset(email)['@'] == 1
  {
    ValidateEmailMatchesRegex(email);
    if RegexMatches(email) {
      MatchHasOneAt(email);
    }
  }

  /** A provider suffix starts with a dot followed by the provider's first letter. */
  lemma ProviderSuffixShape(r: string, provider: string)
    requires IsProvider(provider)
    ensures HasProviderSuffix(r, provider) ==>
      |r| > |provider| + 5 && r[|r| - |provider| - 5] == '.' && r[|r| - |provider| - 4] == provider[0]
  {
    if HasProviderSuffix(r, provider) {
      var k := |provider| + 5;
      assert r[|r| - k..][0] == '.' && r[|r| - k..][1] == provider[0];
    }
  }

  lemma AtInSlices(t: string, i: nat, j: nat)
    requires i < |t| && j < |t| && t[j] == '@'
    ensures j < i ==> '@' in t[..i]
    ensures j > i ==> '@' in t[i + 1..]
  {
    if j < i {
      assert t[..i][j] == '@';
    } else if j > i {
      assert t[i + 1..][j - i - 1] == '@';
    }
  }

  /**
   * When `t` holds a single '@' at `i`, the whole-string match is decided at
   * that '@': the local part is what precedes it and the domain with its
   * provider suffix is what follows it.
   */
  lemma MatchesWholeAtSingleAt(t: string, i: nat)
    requires i < |t| && t[i] == '@' && '@' !in t[..i] && '@' !in t[i + 1..]
    ensures MatchesWhole(t) <==>
      IsLocalPart(t[..i])
      && (HasProviderSuffix(t[i + 1..], "yahoo")
          || HasProviderSuffix(t[i + 1..], "gmail")
          || HasProviderSuffix(t[i + 1..], "outlook"))
  {
    if MatchesWhole(t) {
      var j :| 0 <= j < |t| && t[j] == '@' && IsLocalPart(t[..j])
        && (HasProviderSuffix(t[j + 1..], "yahoo")
            || HasProviderSuffix(t[j + 1..], "gmail")
            || HasProviderSuffix(t[j + 1..], "outlook"));
      AtInSlices(t, i, j);
    }
  }

  /** Decides the three provider suffixes of `r` from its length and two characters. */
  lemma NoProviderSuffix(r: string)
    requires |r| <= 10 || r[|r| - 10] != '.' || (r[|r| - 9] != 'y' && r[|r| - 9] != 'g')
    requires |r| <= 12 || r[|r| - 12] != '.' || r[|r| - 11] != 'o'
    ensures !HasProviderSuffix(r, "yahoo") && !HasProviderSuffix(r, "gmail") && !HasProviderSuffix(r, "outlook")
  {
    ProviderSuffixShape(r, "yahoo");
    ProviderSuffixShape(r, "gmail");
    ProviderSuffixShape(r, "outlook");
  }

  /** A string without '@' is rejected, with or without a final newline. */
  lemma RejectedWithoutAt(t: string)
    requires '@' !in t
    ensures !ValidateEmail(t)
  {
    if |t| > 0 {
      assert forall c :: c in t[..|t| - 1] ==> c in t;
    }
  }

  /**
   * A string that does not end in a newline, holds a single '@' at `i`, and
   * whose text after it has none of the three provider suffixes is rejected.
   */
  lemma RejectedAtSingleAt(t: string, i: nat)
    requires i < |t| && t[i] == '@' && '@' !in t[..i] && '@' !in t[i + 1..] && t[|t| - 1] != '\n'
    requires !HasProviderSuffix(t[i + 1..], "yahoo") && !HasProviderSuffix(t[i + 1..], "gmail")
      && !HasProviderSuffix(t[i + 1..], "outlook")
    ensures !ValidateEmail(t)
  {
    MatchesWholeAtSingleAt(t, i);
  }

  /** `RejectedAtSingleAt` for a literal, with the suffixes ruled out by length and two characters. */
  lemma RejectedByShape(t: string, i: nat)
    requires i < |t| && t[i] == '@' && '@' !in t[..i] && '@' !in t[i + 1..] && t[|t| - 1] != '\n'
    requires var r := t[i + 1..];
      |r| <= 10 || r[|r| - 10] != '.' || (r[|r| - 9] != 'y' && r[|r| - 9] != 'g')
    requires var r := t[i + 1..]; |r| <= 12 || r[|r| - 12] != '.' || r[|r| - 11] != 'o'
    ensures !ValidateEmail(t)
  {
    NoProviderSuffix(t[i + 1..]);
    RejectedAtSingleAt(t, i);
  }

  /** The file's rejection test of a string without '@'. */
  lemma NoAtExampleRejected()
    ensures !ValidateEmail("invalid.email.com")
  {
    RejectedWithoutAt("invalid.email.com");
  }

  /** The file's rejection test of a provider outside the three. */
  lemma UnknownProviderExampleRejected()
    ensures !ValidateEmail("user@yopmail.com")
  {
    RejectedByShape("user@yopmail.com", 4);
  }

  /** The file's rejection tests of a trailing space and of a missing ".com". */
  lemma MalformedEndingExamplesRejected()
    ensures !ValidateEmail("test@gmail.com ")
    ensures !ValidateEmail("john.doe@gmail")
  {
    RejectedByShape("test@gmail.com ", 4);
    RejectedByShape("john.doe@gmail", 8);
  }

  /**
   * The file's acceptance tests do not hold: after the '@' of a bare provider
   * domain there is no room for the domain label the pattern demands.
   */
  lemma BareGmailExampleRejected()
    ensures !ValidateEmail("aavash.bhattarai@gmail.com")
  {
    RejectedByShape("aavash.bhattarai@gmail.com", 16);
  }

  lemma BareYahooExampleRejected()
    ensures !ValidateEmail("ram_bahadur@yahoo.com")
  {
    RejectedByShape("ram_bahadur@yahoo.com", 11);
  }

  lemma BareOutlookExampleRejected()
    ensures !ValidateEmail("bipin.karki@outlook.com")
  {
    RejectedByShape("bipin.karki@outlook.com", 11);
  }

  /** Python's `$` also matches before one final newline: an accepted match stays accepted with "\n" added. */
  lemma FinalNewlineAccepted(t: string)
    requires MatchesWhole(t)
    ensures ValidateEmail(t + "\n")
  {
    assert (t + "\n")[..|t|] == t;
  }

  /** With a domain label before the provider the string is accepted, also with one final newline. */
  lemma LabelledProviderAccepted()
    ensures ValidateEmail("bipin@mail.gmail.com")
    ensures ValidateEmail("bipin@mail.gmail.com" + "\n")
  {
    var t := "bipin@mail.gmail.com";
    MatchFromSplit(t, "bipin", "mail", "gmail");
    FinalNewlineAccepted(t);
  }

  /** Provider matching is case-sensitive. */
  lemma CapitalisedProviderRejected()
    ensures !ValidateEmail("bipin@mail.Gmail.com")
  {
    RejectedByShape("bipin@mail.Gmail.com", 5);
  }
}
