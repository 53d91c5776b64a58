/**
 * The six registry lookups both versions of the page issue for a name: one
 * address lookup (`getAddress`) and five text-record lookups (`getRecord`).
 * The network itself is not modelled: each lookup is given as what came back,
 * an answer or a failure, and a failure is caught and becomes the empty string.
 */
module Lookups {
  import opened Strings

  /** The six records, in the order the page awaits them. */
  datatype Field = AddressField | TwitterField | TelegramField | GithubField | EmailField | UrlField {
    predicate IsText() { !AddressField? }
  }

  /** What one lookup came to: the resolver's answer, or an exception on the way. */
  datatype Lookup = Answered(answer: string) | Threw

  /** The outcomes of the six lookups of one submission. */
  datatype Answers = Answers(address: Lookup, twitter: Lookup, telegram: Lookup,
                             github: Lookup, email: Lookup, url: Lookup)
  {
    function Get(f: Field): Lookup {
      match f
      case AddressField => address
      case TwitterField => twitter
      case TelegramField => telegram
      case GithubField => github
      case EmailField => email
      case UrlField => url
    }

    /** The same answers, except that lookup f threw. */
    function Fail(f: Field): (a: Answers)
      ensures a.Get(f) == Threw
      ensures forall g :: g != f ==> a.Get(g) == Get(g)
    {
      match f
      case AddressField => this.(address := Threw)
      case TwitterField => this.(twitter := Threw)
      case TelegramField => this.(telegram := Threw)
      case GithubField => this.(github := Threw)
      case EmailField => this.(email := Threw)
      case UrlField => this.(url := Threw)
    }
  }

  /** Six strings keyed by field: the settled lookups, or a record built from them. */
  datatype Record = Record(ethAddress: string, twitterName: string, telegramName: string,
                           githubName: string, emailAddress: string, url: string)
  {
    function Get(f: Field): string {
      match f
      case AddressField => ethAddress
      case TwitterField => twitterName
      case TelegramField => telegramName
      case GithubField => githubName
      case EmailField => emailAddress
      case UrlField => url
    }

    /** The same record with field f set to v. */
    function With(f: Field, v: string): (r: Record)
      ensures r.Get(f) == v
      ensures forall g :: g != f ==> r.Get(g) == Get(g)
    {
      match f
      case AddressField => this.(ethAddress := v)
      case TwitterField => this.(twitterName := v)
      case TelegramField => this.(telegramName := v)
      case GithubField => this.(githubName := v)
      case EmailField => this.(emailAddress := v)
      case UrlField => this.(url := v)
    }
  }

  /** The text both versions look for to recognise a placeholder. */
  const NotFound := "not found"

  /** The fixed placeholder that stands for a missing field. */
  function Sentinel(f: Field): (s: string)
    ensures s != ""
    ensures Contains(s, NotFound)
  {
    var s := match f
      case AddressField => "Address not found"
      case TwitterField => "Twitter name not found"
      case TelegramField => "Telegram name not found"
      case GithubField => "GitHub name not found"
      case EmailField => "Email not found"
      case UrlField => "URL not found";
    EndsInNotFound(s);
    s
  }

  /** A placeholder ends in "not found", so `includes('not found')` holds of it. */
  lemma EndsInNotFound(s: string)
    requires s in {"Address not found", "Twitter name not found", "Telegram name not found",
                   "GitHub name not found", "Email not found", "URL not found"}
    ensures Contains(s, NotFound)
  {
    var q := s[..|s| - |NotFound|];
    assert s == q + NotFound;
    assert OccursAt(s, NotFound, |q|);
    ContainsAt(s, NotFound, |q|);
  }

  /**
   * One `getRecord` or `getAddress` call once it has settled: the answer,
   * or the empty string when anything on the way threw.
   */
  function Settle(l: Lookup): (s: string)
    ensures l.Threw? ==> s == ""
    ensures l.Answered? ==> s == l.answer
  {
    match l
    case Answered(v) => v
    case Threw => ""
  }

  /** `Promise.all` over the six lookups: each field is its own lookup, settled. */
  function SettleAll(a: Answers): (r: Record)
    ensures forall f :: r.Get(f) == Settle(a.Get(f))
  {
    Record(Settle(a.address), Settle(a.twitter), Settle(a.telegram),
           Settle(a.github), Settle(a.email), Settle(a.url))
  }

  /** A lookup that throws empties its own field and leaves the other five as they were. */
  lemma ThrowIsLocal(a: Answers, f: Field)
    ensures SettleAll(a.Fail(f)) == SettleAll(a).With(f, "")
  {
  }

  /** JavaScript `v || Sentinel(f)` on a string: the empty string is the only falsy one. */
  function OrSentinel(v: string, f: Field): (r: string)
    ensures r != ""
    ensures v != "" ==> r == v
    ensures v == "" ==> r == Sentinel(f)
  {
    if v != "" then v else Sentinel(f)
  }
}
