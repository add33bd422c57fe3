/**
 * The two e-mail checks of the storefront. The pages test the unanchored regular expression
 * /\S+@\S+\.\S+/ (some substring matches); the contact API tests the anchored
 * /^[^\s@]+@[^\s@]+\.[^\s@]+$/ (the whole string matches). Each is stated here by the
 * positions of its '@' and '.'.
 */
module EmailRules {
  import opened Text

  /**
   * /\S+@\S+\.\S+/.test(s). A match exists exactly when some '@' at `at` has a non-space
   * character before it, a non-empty run of non-space characters after it that ends in a
   * '.' at `dot`, and a non-space character after that '.'. (`\S` matches '@' and '.'
   * themselves, so the shortest match around `at` and `dot` is enough.)
   */
  predicate ClientMatchAt(s: string, at: int, dot: int) {
    && 0 < at && at + 1 < dot && dot + 1 < |s|
    && s[at] == '@' && s[dot] == '.'
    && !IsSpace(s[at - 1])
    && (forall k :: at < k < dot ==> !IsSpace(s[k]))
    && !IsSpace(s[dot + 1])
  }

  predicate ClientEmailOk(s: string) {
    exists at, dot | 0 < at < dot < |s| :: ClientMatchAt(s, at, dot)
  }

  /** A character of `[^\s@]`. */
  predicate PlainChar(c: char) {
    !IsSpace(c) && c != '@'
  }

  /**
   * /^[^\s@]+@[^\s@]+\.[^\s@]+$/.test(s): the string is L '@' D '.' T with L, D and T
   * non-empty and made of characters other than whitespace and '@'.
   */
  predicate ServerMatchAt(s: string, at: int, dot: int) {
    && 0 < at && at + 1 < dot && dot + 1 < |s|
    && s[at] == '@' && s[dot] == '.'
    && (forall k :: 0 <= k < |s| && k != at ==> PlainChar(s[k]))
  }

  predicate ServerEmailOk(s: string) {
    exists at, dot | 0 < at < dot < |s| :: ServerMatchAt(s, at, dot)
  }

  /** What the anchored check accepts: no whitespace at all and exactly one '@'. */
  lemma ServerEmailShape(s: string)
    requires ServerEmailOk(s)
    ensures forall k :: 0 <= k < |s| ==> !IsSpace(s[k])
    ensures exists at :: 0 <= at < |s| && s[at] == '@' && forall k :: 0 <= k < |s| && s[k] == '@' ==> k == at
  {
    var at, dot :| 0 < at < dot < |s| && ServerMatchAt(s, at, dot);
  }

  /** Every address the contact API accepts also passes the pages' check. */
  lemma ServerImpliesClient(s: string)
    requires ServerEmailOk(s)
    ensures ClientEmailOk(s)
  {
    var at, dot :| 0 < at < dot < |s| && ServerMatchAt(s, at, dot);
    assert PlainChar(s[at - 1]) && PlainChar(s[dot + 1]);
    assert forall k :: at < k < dot ==> PlainChar(s[k]);
    assert ClientMatchAt(s, at, dot);
  }

  /** The converse fails: "a@b@c.d" passes the pages' check and is refused by the API. */
  lemma ClientDoesNotImplyServer()
    ensures ClientEmailOk("a@b@c.d") && !ServerEmailOk("a@b@c.d")
  {
    var s := "a@b@c.d";
    assert ClientMatchAt(s, 3, 5);
    TwoAtsRefused(s, 1, 3);
  }

  /** A string with two '@' characters is refused by the anchored check. */
  lemma TwoAtsRefused(s: string, i: int, j: int)
    requires 0 <= i < j < |s| && s[i] == '@' && s[j] == '@'
    ensures !ServerEmailOk(s)
  {
    forall at, dot | 0 < at < dot < |s| ensures !ServerMatchAt(s, at, dot) {
      if at != i {
        assert !PlainChar(s[i]);
      } else {
        assert !PlainChar(s[j]);
      }
    }
  }

  /** A string that passes the pages' check is not blank, so it never gets both messages. */
  lemma ClientOkNotBlank(s: string)
    requires ClientEmailOk(s)
    ensures !IsBlank(s)
  {
    var at, dot :| 0 < at < dot < |s| && ClientMatchAt(s, at, dot);
    BlankIffAllSpace(s);
    assert !IsSpace(s[at]);
  }
}
