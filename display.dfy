/**
 * app.js: what `generateQRCodeForEachKeyValuePair` pushes onto `qrDataArray`
 * for a record object, as a function of that object. The loop visits the
 * properties in order, skips placeholders and the zero address, formats four
 * of them as links, and stops with a TypeError at the first `undefined`
 * property, since `undefined.includes` throws.
 */
module Display {
  import opened Strings
  import opened Lookups
  import opened Objects
  import opened Records

  /** One element of `qrDataArray`: a property name and its QR payload. */
  datatype Item = Item(key: Key, value: string)

  /** How the loop ended, with the items pushed up to then. */
  datatype Derived = Finished(items: seq<Item>) | Crashed(items: seq<Item>)

  /** The URL or scheme put in front of a value; empty for the pass-through keys. */
  function Prefix(k: Key): (p: string)
    ensures 'n' !in p
  {
    match k
    case TwitterName => "https://twitter.com/"
    case TelegramName => "https://t.me/"
    case GithubName => "https://github.com/"
    case EmailAddress => "mailto:"
    case _ => ""
  }

  /** The payload for a kept value: its prefix, then the value itself, which can be read back. */
  function Format(k: Key, v: string): (r: string)
    ensures StartsWith(r, Prefix(k)) && r[|Prefix(k)|..] == v
  {
    Prefix(k) + v
  }

  /** Formatting neither hides nor invents a "not found". */
  lemma FormatKeepsPlaceholders(k: Key, v: string)
    ensures Contains(Format(k, v), NotFound) <==> Contains(v, NotFound)
  {
    if Contains(v, NotFound) {
      ContainsAfterPrefix(Prefix(k), v, NotFound);
    } else {
      NoOccurrenceFromPrefix(Prefix(k), v, NotFound);
    }
  }

  /** The two `continue` tests of the loop. */
  predicate Skipped(k: Key, v: string) {
    Contains(v, NotFound) || (k == EthAddress && v == ZeroAddress)
  }

  /** What one string-valued property adds to `qrDataArray`. */
  function Kept(k: Key, v: string): seq<Item> {
    if Skipped(k, v) then [] else [Item(k, Format(k, v))]
  }

  /** The loop over the properties of `es`, from an empty `qrDataArray`. */
  function Derive(es: seq<Entry>): (r: Derived)
    ensures |r.items| <= |es|
    decreases |es|
  {
    if es == [] then Finished([])
    else match es[0].value
      case Undefined => Crashed([])
      case Str(v) =>
        var rest := Derive(es[1..]);
        rest.(items := Kept(es[0].key, v) + rest.items)
  }

  /** Running the loop over a + b: over a, then, unless that crashed, over b. */
  lemma {:induction false} DeriveAppend(a: seq<Entry>, b: seq<Entry>)
    ensures Derive(a + b) ==
      if Derive(a).Crashed? then Derive(a)
      else Derive(b).(items := Derive(a).items + Derive(b).items)
    decreases |a|
  {
    if a == [] {
      assert a + b == b;
    } else {
      assert (a + b)[0] == a[0];
      assert (a + b)[1..] == a[1..] + b;
      DeriveAppend(a[1..], b);
      match a[0].value
      case Undefined =>
      case Str(v) =>
        assert Kept(a[0].key, v) + (Derive(a[1..]).items + Derive(b).items)
            == (Kept(a[0].key, v) + Derive(a[1..]).items) + Derive(b).items;
    }
  }

  /** One more turn of the loop: the next property is formatted and pushed, skipped, or throws. */
  lemma DeriveStep(es: seq<Entry>, i: nat)
    requires i < |es| && Derive(es[..i]).Finished?
    ensures Derive(es[..i + 1]) == match es[i].value
      case Undefined => Crashed(Derive(es[..i]).items)
      case Str(v) => Finished(Derive(es[..i]).items + Kept(es[i].key, v))
  {
    DeriveAppend(es[..i], [es[i]]);
    assert es[..i + 1] == es[..i] + [es[i]];
    assert [es[i]][1..] == [];
  }

  /** Once the loop has thrown, the properties after that point change nothing. */
  lemma DeriveStopped(es: seq<Entry>, i: nat)
    requires i <= |es| && Derive(es[..i]).Crashed?
    ensures Derive(es) == Derive(es[..i])
  {
    DeriveAppend(es[..i], es[i..]);
    assert es[..i] + es[i..] == es;
  }

  /** The loop runs to the end exactly when no property is `undefined`. */
  lemma {:induction false} DeriveFinishedIff(es: seq<Entry>)
    ensures Derive(es).Finished? <==> forall e :: e in es ==> e.value.Str?
    decreases |es|
  {
    if es != [] {
      DeriveFinishedIff(es[1..]);
      assert forall e :: e in es <==> e == es[0] || e in es[1..];
    }
  }

  /** Every pushed item is the formatted value of a property that was not skipped. */
  lemma {:induction false} DeriveSound(es: seq<Entry>)
    ensures forall it :: it in Derive(es).items ==>
      exists e :: e in es && e.value.Str? && !Skipped(e.key, e.value.s) &&
                  it == Item(e.key, Format(e.key, e.value.s))
    decreases |es|
  {
    if es != [] && es[0].value.Str? {
      DeriveSound(es[1..]);
      forall it | it in Derive(es).items
        ensures exists e :: e in es && e.value.Str? && !Skipped(e.key, e.value.s) &&
                            it == Item(e.key, Format(e.key, e.value.s))
      {
        if it in Derive(es[1..]).items {
          var e :| e in es[1..] && e.value.Str? && !Skipped(e.key, e.value.s) &&
                   it == Item(e.key, Format(e.key, e.value.s));
          assert e in es;
        } else {
          assert es[0] in es;
        }
      }
    }
  }

  /** When the loop finishes, every property that is not skipped is pushed. */
  lemma {:induction false} DeriveComplete(es: seq<Entry>)
    requires Derive(es).Finished?
    ensures forall e :: e in es && e.value.Str? && !Skipped(e.key, e.value.s) ==>
      Item(e.key, Format(e.key, e.value.s)) in Derive(es).items
    decreases |es|
  {
    if es != [] {
      DeriveComplete(es[1..]);
      assert forall e :: e in es <==> e == es[0] || e in es[1..];
    }
  }

  /** Pushed items keep the order of the properties they come from. */
  lemma {:induction false} DeriveOrdered(es: seq<Entry>)
    requires InDeclarationOrder(es)
    ensures forall i, j :: 0 <= i < j < |Derive(es).items| ==>
      Rank(Derive(es).items[i].key) < Rank(Derive(es).items[j].key)
    decreases |es|
  {
    if es != [] && es[0].value.Str? {
      DeriveOrdered(es[1..]);
      DeriveSound(es[1..]);
      var rest := Derive(es[1..]).items;
      forall it | it in rest ensures Rank(es[0].key) < Rank(it.key) {
        var e :| e in es[1..] && it.key == e.key;
        var j :| 0 <= j < |es[1..]| && es[1..][j] == e;
        assert es[j + 1] == e;
      }
    }
  }

  /** No pushed payload holds the text "not found". */
  lemma NoPlaceholderShown(es: seq<Entry>)
    ensures forall it :: it in Derive(es).items ==> !Contains(it.value, NotFound)
  {
    DeriveSound(es);
    forall it | it in Derive(es).items ensures !Contains(it.value, NotFound) {
      var e :| e in es && e.value.Str? && !Skipped(e.key, e.value.s) &&
               it == Item(e.key, Format(e.key, e.value.s));
      FormatKeepsPlaceholders(e.key, e.value.s);
    }
  }

  /**
   * For an object whose keys are distinct, the property at index i is shown
   * exactly when it is not skipped, and only with its formatted value.
   */
  lemma DeriveEntry(es: seq<Entry>, i: nat)
    requires InDeclarationOrder(es) && Derive(es).Finished?
    requires i < |es| && es[i].value.Str?
    ensures (exists v :: Item(es[i].key, v) in Derive(es).items) <==> !Skipped(es[i].key, es[i].value.s)
    ensures forall v :: Item(es[i].key, v) in Derive(es).items ==> v == Format(es[i].key, es[i].value.s)
  {
    var k, s := es[i].key, es[i].value.s;
    DeriveSound(es);
    DeriveComplete(es);
    forall v | Item(k, v) in Derive(es).items ensures !Skipped(k, s) && v == Format(k, s) {
      var e :| e in es && e.value.Str? && !Skipped(e.key, e.value.s) &&
               Item(k, v) == Item(e.key, Format(e.key, e.value.s));
      var j :| 0 <= j < |es| && es[j] == e;
      assert Rank(es[j].key) == Rank(es[i].key);
      assert !(j < i) && !(i < j);
    }
    if !Skipped(k, s) {
      assert es[i] in es;
      assert Item(k, Format(k, s)) in Derive(es).items;
    }
  }

  /** The items of a submission that found something. */
  function SubmittedItems(name: string, raw: Record): Derived
    requires !NothingFound(raw)
  {
    Derive(Output(name, ResolveRecords(name, raw).value))
  }

  /**
   * The deriver runs to the end exactly for names under `.eth`; for any other
   * name the undefined `dWebLink` stops it after the `ensName` item.
   */
  lemma DerivesIffEthName(name: string, raw: Record)
    requires !NothingFound(raw)
    ensures SubmittedItems(name, raw).Finished? <==> EndsWith(name, ".eth")
    ensures !EndsWith(name, ".eth") ==>
      SubmittedItems(name, raw).items == Kept(EnsName, ResolveRecords(name, raw).value.ensName)
  {
    var rs := ResolveRecords(name, raw).value;
    var es := Output(name, rs);
    OutputIsResults(name, rs);
    DeriveFinishedIff(es);
    if !EndsWith(name, ".eth") {
      assert es[1].value == Undefined;
      assert es[1..][0] == es[1];
      assert Derive(es[1..]) == Crashed([]);
    } else {
      forall e | e in es ensures e.value.Str? {
        var j :| 0 <= j < |es| && es[j] == e;
      }
    }
  }

  /** The condition under which a looked-up value reaches the display. */
  predicate Displayable(f: Field, v: string) {
    (if f.IsText() then v != "" else v != ZeroAddress) && !Contains(v, NotFound)
  }

  /**
   * For a `.eth` name, field f is shown exactly when its lookup is displayable,
   * and then as the formatted lookup value. An empty address is displayable.
   */
  lemma FieldShown(name: string, raw: Record, f: Field)
    requires !NothingFound(raw) && EndsWith(name, ".eth")
    ensures (exists v :: Item(KeyOf(f), v) in SubmittedItems(name, raw).items) <==>
            Displayable(f, raw.Get(f))
    ensures forall v :: Item(KeyOf(f), v) in SubmittedItems(name, raw).items ==>
            v == Format(KeyOf(f), raw.Get(f))
  {
    var rs := ResolveRecords(name, raw).value;
    var es := Output(name, rs);
    OutputIsResults(name, rs);
    DerivesIffEthName(name, raw);
    var i := Rank(KeyOf(f));
    assert es[i] == Entry(KeyOf(f), Str(rs.fields.Get(f)));
    DeriveEntry(es, i);
    if f.IsText() {
      if raw.Get(f) == "" {
        assert rs.fields.Get(f) == Sentinel(f);
      }
    } else {
      assert rs.fields.Get(f) == rs.fields.ethAddress;
      if raw.ethAddress == ZeroAddress {
        assert rs.fields.ethAddress == Sentinel(AddressField);
      }
    }
  }

  /**
   * For a `.eth` name the first two properties, the name and its gateway link,
   * are shown unless they hold "not found"; the name, when shown, comes first.
   */
  lemma NameShown(name: string, raw: Record)
    requires !NothingFound(raw) && EndsWith(name, ".eth")
    ensures Item(EnsName, name) in SubmittedItems(name, raw).items <==> !Contains(name, NotFound)
    ensures Item(DWebLink, "https://" + name + ".limo") in SubmittedItems(name, raw).items <==>
            !Contains("https://" + name + ".limo", NotFound)
    ensures !Contains(name, NotFound) ==> SubmittedItems(name, raw).items[0] == Item(EnsName, name)
  {
    var rs := ResolveRecords(name, raw).value;
    var es := Output(name, rs);
    OutputIsResults(name, rs);
    DerivesIffEthName(name, raw);
    DeriveEntry(es, 0);
    DeriveEntry(es, 1);
    if !Contains(name, NotFound) {
      assert es[0] == Entry(EnsName, Str(name));
    }
  }
}
