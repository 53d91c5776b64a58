/**
 * The page's plain JavaScript objects, seen as the ordered list of their own
 * properties. For string keys JavaScript keeps properties in insertion order:
 * assigning to an existing key replaces its value in place, assigning to a new
 * key appends it, and `for…in` and `JSON.stringify` walk them in that order.
 */
module Objects {

  /** The property names that occur in the record objects. */
  datatype Key = EnsName | DWebLink | EthAddress | TwitterName | TelegramName
               | GithubName | EmailAddress | Url

  /** The property name as written in the source. */
  function KeyName(k: Key): string {
    match k
    case EnsName => "ensName"
    case DWebLink => "dWebLink"
    case EthAddress => "ethAddress"
    case TwitterName => "twitterName"
    case TelegramName => "telegramName"
    case GithubName => "githubName"
    case EmailAddress => "emailAddress"
    case Url => "url"
  }

  /** Position of the key in the object literal that `resolveRecords` returns. */
  function Rank(k: Key): nat {
    match k
    case EnsName => 0
    case DWebLink => 1
    case EthAddress => 2
    case TwitterName => 3
    case TelegramName => 4
    case GithubName => 5
    case EmailAddress => 6
    case Url => 7
  }

  /** A property value: a string, or `undefined`. */
  datatype JsValue = Str(s: string) | Undefined

  /** One own property of an object. */
  datatype Entry = Entry(key: Key, value: JsValue)

  predicate HasKey(obj: seq<Entry>, k: Key) {
    exists i :: 0 <= i < |obj| && obj[i].key == k
  }

  /** Keys strictly in `resolveRecords`' declaration order; in particular no key twice. */
  predicate InDeclarationOrder(obj: seq<Entry>) {
    forall i, j :: 0 <= i < j < |obj| ==> Rank(obj[i].key) < Rank(obj[j].key)
  }

  /** The assignment `obj[e.key] = e.value`. */
  function Put(obj: seq<Entry>, e: Entry): (r: seq<Entry>)
    ensures !HasKey(obj, e.key) ==> r == obj + [e]
    ensures forall j :: (0 <= j < |obj| && obj[j].key == e.key &&
                         forall i :: 0 <= i < j ==> obj[i].key != e.key) ==> r == obj[j := e]
  {
    if obj == [] then [e]
    else if obj[0].key == e.key then [e] + obj[1..]
    else [obj[0]] + Put(obj[1..], e)
  }

  /** The spread `{ ...obj, ...src }`: the properties of src assigned one by one onto obj. */
  function SpreadInto(obj: seq<Entry>, src: seq<Entry>): seq<Entry>
    decreases |src|
  {
    if src == [] then obj else SpreadInto(Put(obj, src[0]), src[1..])
  }

  /** Spreading properties whose keys are all new appends them in their own order. */
  lemma {:induction false} SpreadFresh(obj: seq<Entry>, src: seq<Entry>)
    requires InDeclarationOrder(obj + src)
    ensures SpreadInto(obj, src) == obj + src
    decreases |src|
  {
    if src != [] {
      var e := src[0];
      assert !HasKey(obj, e.key) by {
        forall i | 0 <= i < |obj| ensures obj[i].key != e.key {
          assert (obj + src)[i] == obj[i] && (obj + src)[|obj|] == e;
        }
      }
      assert Put(obj, e) == obj + [e];
      assert (obj + [e]) + src[1..] == obj + src;
      SpreadFresh(obj + [e], src[1..]);
    }
  }
}
