/**
 * test1/app.js: the earlier version of the page. Its `resolveRecords` always
 * returns the six fields, each looked-up value or, when it is empty, its
 * placeholder (the address included, while the zero address is kept as it is);
 * the submit handler prints `{ ensName, ...results }`.
 */
module Test1Records {
  import opened Lookups
  import opened Objects
  import Records

  /** `resolveRecords` after its lookups have settled: six `||` fallbacks. */
  function ResolveRecords(raw: Record): (r: Record)
    ensures forall f: Field :: r.Get(f) == OrSentinel(raw.Get(f), f)
    ensures forall f: Field :: r.Get(f) != ""
    ensures raw.ethAddress == Records.ZeroAddress ==> r.ethAddress == Records.ZeroAddress
    ensures raw.ethAddress == "" ==> r.ethAddress == Sentinel(AddressField)
  {
    Record(
      OrSentinel(raw.ethAddress, AddressField),
      OrSentinel(raw.twitterName, TwitterField),
      OrSentinel(raw.telegramName, TelegramField),
      OrSentinel(raw.githubName, GithubField),
      OrSentinel(raw.emailAddress, EmailField),
      OrSentinel(raw.url, UrlField))
  }

  /** A lookup that throws shows its placeholder; the five other fields keep their own values. */
  lemma FailedLookupShowsSentinel(a: Answers, f: Field)
    ensures ResolveRecords(SettleAll(a.Fail(f))).Get(f) == Sentinel(f)
    ensures forall g: Field :: g != f ==>
      ResolveRecords(SettleAll(a.Fail(f))).Get(g) == ResolveRecords(SettleAll(a)).Get(g)
  {
  }

  /** Every placeholder is non-empty, so applying the fallbacks again changes nothing. */
  lemma ResolveIdempotent(raw: Record)
    ensures ResolveRecords(ResolveRecords(raw)) == ResolveRecords(raw)
  {
  }

  /** The object literal `resolveRecords` returns, property by property. */
  function Results(r: Record): (es: seq<Entry>)
    ensures |es| == 6
    ensures forall i :: 0 <= i < 6 ==> Rank(es[i].key) == i + 2
    ensures forall i :: 0 <= i < 6 ==> es[i].value.Str?
    ensures forall f: Field :: es[Rank(Records.KeyOf(f)) - 2] == Entry(Records.KeyOf(f), Str(r.Get(f)))
  {
    [Entry(EthAddress, Str(r.ethAddress)),
     Entry(TwitterName, Str(r.twitterName)),
     Entry(TelegramName, Str(r.telegramName)),
     Entry(GithubName, Str(r.githubName)),
     Entry(EmailAddress, Str(r.emailAddress)),
     Entry(Url, Str(r.url))]
  }

  /** The object the submit handler prints: `{ ensName, ...results }`. */
  function Printed(name: string, raw: Record): seq<Entry> {
    SpreadInto([Entry(EnsName, Str(name))], Results(ResolveRecords(raw)))
  }

  /** The printed object is the typed name followed by the six fields in their fixed order. */
  lemma PrintedShape(name: string, raw: Record)
    ensures Printed(name, raw) == [Entry(EnsName, Str(name))] + Results(ResolveRecords(raw))
    ensures |Printed(name, raw)| == 7
  {
    var obj: seq<Entry> := [Entry(EnsName, Str(name))];
    var src := Results(ResolveRecords(raw));
    var whole := obj + src;
    assert InDeclarationOrder(whole) by {
      forall i: int, j: int | 0 <= i < j < |whole| ensures Rank(whole[i].key) < Rank(whole[j].key) {
        if i > 0 {
          assert whole[i] == src[i - 1];
        }
        assert whole[j] == src[j - 1];
      }
    }
    SpreadFresh(obj, src);
  }
}
