/**
 * app.js: `resolveRecords`, which turns the six settled lookups into the record
 * set the page displays, and the `{ ensName, ...results }` object the submit
 * handler hands to the deriver.
 */
module Records {
  import opened Wrappers
  import opened Strings
  import opened Lookups
  import opened Objects

  /** The address a resolver returns for a name that has none. */
  const ZeroAddress := "0x0000000000000000000000000000000000000000"

  const EnsNameSentinel := "ENS Name not found"

  /** What `resolveRecords` returns when something was found. */
  datatype RecordSet = RecordSet(ensName: string, dWebLink: JsValue, fields: Record)

  /** The guard of the "No ENS name found" alert: no address and no text record. */
  predicate NothingFound(raw: Record) {
    (raw.ethAddress == ZeroAddress || raw.ethAddress == "") &&
    raw.twitterName == "" && raw.telegramName == "" && raw.githubName == "" &&
    raw.emailAddress == "" && raw.url == ""
  }

  /** The eth.limo gateway link, present only for names under `.eth`. */
  function DWebLinkFor(name: string): (r: JsValue)
    ensures r.Str? <==> EndsWith(name, ".eth")
    ensures r.Str? ==> StartsWith(r.s, "https://") && EndsWith(r.s, ".eth.limo")
    ensures r.Str? ==> |r.s| == |name| + 13 && r.s[8..|r.s| - 5] == name
  {
    if EndsWith(name, ".eth") then Str("https://" + name + ".limo") else Undefined
  }

  /**
   * `resolveRecords` after its lookups have settled: nothing when no address and
   * no text record came back; otherwise the record set with placeholders.
   * Only the exact zero address becomes the address placeholder; an empty
   * address stays empty.
   */
  function ResolveRecords(name: string, raw: Record): (r: Option<RecordSet>)
    ensures r.None? <==> NothingFound(raw)
    ensures r.Some? ==> r.value.dWebLink == DWebLinkFor(name)
    ensures r.Some? ==> r.value.ensName != "" && (name != "" ==> r.value.ensName == name)
    ensures r.Some? && name == "" ==> r.value.ensName == EnsNameSentinel
    ensures r.Some? ==> forall f: Field :: f.IsText() ==> r.value.fields.Get(f) == OrSentinel(raw.Get(f), f)
    ensures r.Some? ==> (r.value.fields.ethAddress == Sentinel(AddressField) <==>
                         raw.ethAddress == ZeroAddress || raw.ethAddress == Sentinel(AddressField))
    ensures r.Some? && raw.ethAddress != ZeroAddress ==> r.value.fields.ethAddress == raw.ethAddress
    ensures r.Some? ==> r.value.fields.ethAddress != ZeroAddress
  {
    if NothingFound(raw) then None
    else
      Some(RecordSet(
        if name != "" then name else EnsNameSentinel,
        DWebLinkFor(name),
        Record(
          if raw.ethAddress == ZeroAddress then Sentinel(AddressField) else raw.ethAddress,
          OrSentinel(raw.twitterName, TwitterField),
          OrSentinel(raw.telegramName, TelegramField),
          OrSentinel(raw.githubName, GithubField),
          OrSentinel(raw.emailAddress, EmailField),
          OrSentinel(raw.url, UrlField))))
  }

  /** Reads the lookups back from a record set: each placeholder becomes what it replaced. */
  function Recover(fields: Record): Record {
    Record(
      if fields.ethAddress == Sentinel(AddressField) then ZeroAddress else fields.ethAddress,
      if fields.twitterName == Sentinel(TwitterField) then "" else fields.twitterName,
      if fields.telegramName == Sentinel(TelegramField) then "" else fields.telegramName,
      if fields.githubName == Sentinel(GithubField) then "" else fields.githubName,
      if fields.emailAddress == Sentinel(EmailField) then "" else fields.emailAddress,
      if fields.url == Sentinel(UrlField) then "" else fields.url)
  }

  /**
   * Normalisation loses nothing but the difference between a lookup and its
   * placeholder: unless a lookup returned placeholder text itself, the lookups
   * can be read back from the record set.
   */
  lemma RecoverRoundTrip(name: string, raw: Record)
    requires !NothingFound(raw)
    requires forall f: Field :: raw.Get(f) != Sentinel(f)
    ensures Recover(ResolveRecords(name, raw).value.fields) == raw
  {
  }

  /** The property of the record object that holds field f. */
  function KeyOf(f: Field): (k: Key)
    ensures 2 <= Rank(k)
  {
    match f
    case AddressField => EthAddress
    case TwitterField => TwitterName
    case TelegramField => TelegramName
    case GithubField => GithubName
    case EmailField => EmailAddress
    case UrlField => Url
  }

  /** The object literal `resolveRecords` returns, property by property. */
  function Results(rs: RecordSet): (es: seq<Entry>)
    ensures |es| == 8
    ensures forall i :: 0 <= i < 8 ==> Rank(es[i].key) == i
    ensures InDeclarationOrder(es)
  {
    [Entry(EnsName, Str(rs.ensName)),
     Entry(DWebLink, rs.dWebLink),
     Entry(EthAddress, Str(rs.fields.ethAddress)),
     Entry(TwitterName, Str(rs.fields.twitterName)),
     Entry(TelegramName, Str(rs.fields.telegramName)),
     Entry(GithubName, Str(rs.fields.githubName)),
     Entry(EmailAddress, Str(rs.fields.emailAddress)),
     Entry(Url, Str(rs.fields.url))]
  }

  /** The submit handler's `{ ensName, ...results }`. */
  function Output(name: string, rs: RecordSet): seq<Entry> {
    SpreadInto([Entry(EnsName, Str(name))], Results(rs))
  }

  /**
   * The spread overwrites the typed name with the record's `ensName` in first
   * place and appends the other seven properties in their declared order.
   */
  lemma OutputIsResults(name: string, rs: RecordSet)
    ensures Output(name, rs) == Results(rs)
    ensures Output(name, rs)[0] == Entry(EnsName, Str(rs.ensName))
    ensures Output(name, rs)[1] == Entry(DWebLink, rs.dWebLink)
    ensures forall f: Field :: Output(name, rs)[Rank(KeyOf(f))] == Entry(KeyOf(f), Str(rs.fields.Get(f)))
  {
    var res := Results(rs);
    assert Put([Entry(EnsName, Str(name))], res[0]) == [res[0]];
    SpreadFresh([res[0]], res[1..]);
    assert [res[0]] + res[1..] == res;
  }
}
