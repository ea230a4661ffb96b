/** The newsletter sign-up form, reduced to its data: the two field validators, the interest
    toggle, and what a submission does with the server's answer. The request itself is a value
    given to the model. */
module NewsletterForm {
  import opened Wrappers
  import opened Lists
  import opened Text

  datatype FormValues = FormValues(email: string, name: string, interests: seq<string>)

  const DefaultValues := FormValues("", "", [])
  const NameTooShort := "Name must be at least 2 characters"
  const InvalidEmail := "Please enter a valid email"
  const SubscriptionFailed := "Subscription failed"
  const UnknownError := "Unknown error"
  const Interests: seq<string> := ["Workshops", "Demos", "Networking", "Recipes"]

  // ---------------------------------------------------------------------------------------
  // Validators

  /** The name validator: an error exactly for names shorter than two characters. */
  function NameError(name: string): (r: Option<string>)
    ensures r.Some? <==> |name| < 2
    ensures r.Some? ==> r.value == NameTooShort
  {
    if |name| < 2 then Some(NameTooShort) else None
  }

  /** The character class `[^\s@]`. */
  predicate Plain(c: char) {
    !IsWhitespace(c) && c != '@'
  }

  /** `[^\s@]+`: a non-empty run of plain characters. */
  predicate PlainRun(s: string) {
    |s| > 0 && forall k :: 0 <= k < |s| ==> Plain(s[k])
  }

  /** What `^[^\s@]+@[^\s@]+\.[^\s@]+$` matches: a plain run, '@', a plain run, '.', a plain run,
      where `i` is the position of the '@' and `j` that of the '.'. */
  ghost predicate MatchesEmailPattern(s: string) {
    exists i, j :: 0 < i < j < |s| && s[i] == '@' && s[j] == '.'
      && PlainRun(s[..i]) && PlainRun(s[i + 1..j]) && PlainRun(s[j + 1..])
  }

  /** The same language described by its parts: no whitespace, exactly one '@' with something
      before it, and after it a domain holding a '.' that is neither its first nor its last
      character. */
  predicate EmailShape(s: string) {
    && (forall k :: 0 <= k < |s| ==> !IsWhitespace(s[k]))
    && match IndexOf(s, '@')
       case None => false
       case Some(i) =>
         && i > 0
         && '@' !in s[i + 1..]
         && exists k :: i + 1 < k < |s| - 1 && s[k] == '.'
  }

  /** The email validator. */
  function EmailError(email: string): (r: Option<string>)
    ensures r.None? <==> EmailShape(email)
    ensures r.Some? ==> r.value == InvalidEmail
  {
    if EmailShape(email) then None else Some(InvalidEmail)
  }

  /** The regular expression and the description by parts accept the same strings. */
  lemma EmailPatternIsShape(s: string)
    ensures MatchesEmailPattern(s) <==> EmailShape(s)
  {
    if MatchesEmailPattern(s) {
      var i, j :| 0 < i < j < |s| && s[i] == '@' && s[j] == '.'
        && PlainRun(s[..i]) && PlainRun(s[i + 1..j]) && PlainRun(s[j + 1..]);
      PatternGivesShape(s, i, j);
    }
    if EmailShape(s) {
      ShapeGivesPattern(s);
    }
  }

  lemma PatternGivesShape(s: string, i: nat, j: nat)
    requires 0 < i < j < |s| && s[i] == '@' && s[j] == '.'
    requires PlainRun(s[..i]) && PlainRun(s[i + 1..j]) && PlainRun(s[j + 1..])
    ensures EmailShape(s)
  {
    forall k | 0 <= k < |s| ensures !IsWhitespace(s[k]) && (k != i ==> s[k] != '@') {
      if k < i {
        assert s[k] == s[..i][k];
      } else if i < k < j {
        assert s[k] == s[i + 1..j][k - i - 1];
      } else if j < k {
        assert s[k] == s[j + 1..][k - j - 1];
      }
    }
    assert '@' !in s[..i];
    assert IndexOf(s, '@').value == i;
    var domain := s[i + 1..];
    assert '@' !in domain by {
      forall k | 0 <= k < |domain| ensures domain[k] != '@' {
        assert domain[k] == s[i + 1 + k];
      }
    }
    assert i + 1 < j < |s| - 1 && s[j] == '.';
  }

  lemma ShapeGivesPattern(s: string)
    requires EmailShape(s)
    ensures MatchesEmailPattern(s)
  {
    var i := IndexOf(s, '@').value;
    var j :| i + 1 < j < |s| - 1 && s[j] == '.';
    assert PlainRun(s[..i]) by {
      forall k | 0 <= k < i ensures Plain(s[..i][k]) {
        assert s[..i][k] == s[k];
        assert s[k] in s[..i];
      }
    }
    var domain, host, top := s[i + 1..], s[i + 1..j], s[j + 1..];
    assert PlainRun(host) by {
      forall k | 0 <= k < |host| ensures Plain(host[k]) {
        assert host[k] == domain[k];
      }
    }
    assert PlainRun(top) by {
      forall k | 0 <= k < |top| ensures Plain(top[k]) {
        assert top[k] == domain[j - i + k];
      }
    }
  }

  // ---------------------------------------------------------------------------------------
  // Interests

  function IsNot(interest: string): string -> bool {
    (x: string) => x != interest
  }

  /** A click on an interest: a selected one is removed everywhere, another one is appended. */
  function ToggleInterest(values: seq<string>, interest: string): (r: seq<string>)
    ensures interest in r <==> interest !in values
    ensures forall x :: x != interest ==> (x in r <==> x in values)
    ensures interest !in values ==> r == values + [interest]
    ensures interest in values ==> r == Filter(values, IsNot(interest))
  {
    if interest in values then
      assert forall x :: IsNot(interest)(x) == (x != interest);
      Filter(values, IsNot(interest))
    else values + [interest]
  }

  predicate Distinct(xs: seq<string>) {
    forall i, j :: 0 <= i < j < |xs| ==> xs[i] != xs[j]
  }

  /** A second click on the same interest restores its membership and leaves every other
      interest where it was; an interest that was not selected leaves the list exactly as it
      was before the first click. */
  lemma ToggleTwice(values: seq<string>, interest: string)
    ensures forall x :: x in ToggleInterest(ToggleInterest(values, interest), interest) <==> x in values
    ensures interest !in values ==> ToggleInterest(ToggleInterest(values, interest), interest) == values
  {
    if interest !in values {
      FilterAppend(values, [interest], IsNot(interest));
      assert Filter([interest], IsNot(interest)) == [] by {
        assert !IsNot(interest)(interest);
        assert [interest][1..] == [];
      }
      forall i | 0 <= i < |values| ensures IsNot(interest)(values[i]) {
        assert values[i] in values;
      }
      FilterKeepsAll(values, IsNot(interest));
    }
  }

  /** Toggling keeps a list free of duplicates. */
  lemma ToggleKeepsDistinct(values: seq<string>, interest: string)
    requires Distinct(values)
    ensures Distinct(ToggleInterest(values, interest))
  {
    if interest in values {
      FilterKeepsDistinct(values, IsNot(interest));
    }
  }

  lemma {:induction false} FilterKeepsDistinct(xs: seq<string>, p: string -> bool)
    requires Distinct(xs)
    ensures Distinct(Filter(xs, p))
  {
    if xs != [] {
      var rest := Filter(xs[1..], p);
      assert Distinct(xs[1..]) by {
        forall i, j | 0 <= i < j < |xs[1..]| ensures xs[1..][i] != xs[1..][j] {
          assert xs[1..][i] == xs[i + 1] && xs[1..][j] == xs[j + 1];
        }
      }
      FilterKeepsDistinct(xs[1..], p);
      assert xs[0] !in xs[1..] by {
        forall i | 0 <= i < |xs[1..]| ensures xs[1..][i] != xs[0] {
          assert xs[1..][i] == xs[i + 1];
        }
      }
      assert xs[0] !in rest;
      var r := Filter(xs, p);
      if p(xs[0]) {
        assert r == [xs[0]] + rest;
        forall i, j | 0 <= i < j < |r| ensures r[i] != r[j] {
          if i == 0 {
            assert r[j] == rest[j - 1];
            assert rest[j - 1] in rest;
          } else {
            assert r[i] == rest[i - 1] && r[j] == rest[j - 1];
          }
        }
      } else {
        assert r == rest;
      }
    }
  }

  // ---------------------------------------------------------------------------------------
  // Submission

  /** How the request went: a response with its `ok` flag, or a rejection carrying the message of
      the thrown `Error` (`None`: something other than an `Error` was thrown). */
  datatype FetchResult = Responded(ok: bool) | Rejected(message: Option<string>)

  /** A submission: not sent because a field is invalid, a success reported to `onSuccess`, or a
      failure reported to `onError` with its message. */
  datatype SubmitOutcome = Blocked | Subscribed | Failed(error: string)

  /** The outcome of a submission and the values the form holds afterwards. A request is made
      only when both validators pass; only a successful response resets the form. */
  function Submit(values: FormValues, fetch: FetchResult): (r: (SubmitOutcome, FormValues))
    ensures r.0 == Blocked <==> NameError(values.name).Some? || EmailError(values.email).Some?
    ensures r.0 == Subscribed <==> r.0 != Blocked && fetch == Responded(true)
    ensures r.0 == Subscribed ==> r.1 == DefaultValues
    ensures r.0 != Subscribed ==> r.1 == values
    ensures r.0.Failed? && fetch.Responded? ==> r.0.error == SubscriptionFailed
    ensures r.0.Failed? && fetch.Rejected? ==> r.0.error == fetch.message.GetOr(UnknownError)
  {
    if NameError(values.name).Some? || EmailError(values.email).Some? then (Blocked, values)
    else match fetch
      case Responded(ok) => if ok then (Subscribed, DefaultValues) else (Failed(SubscriptionFailed), values)
      case Rejected(message) => (Failed(message.GetOr(UnknownError)), values)
  }

  /** The submit button is disabled while the form cannot be submitted or a submission runs. */
  function SubmitDisabled(canSubmit: bool, isSubmitting: bool): (r: bool)
    ensures !r <==> canSubmit && !isSubmitting
  {
    !canSubmit || isSubmitting
  }

  function SubmitLabel(isSubmitting: bool): (r: string)
    ensures r == (if isSubmitting then "Subscribing..." else "Subscribe")
  {
    if isSubmitting then "Subscribing..." else "Subscribe"
  }
}
