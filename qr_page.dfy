/**
 * app.js: the page state that the submit handler, the deriver, `updateQRCode`
 * and the prev/next handlers share: the module-level `qrDataArray` and
 * `qrIndex`, the two navigation buttons' `disabled` flags, whether the
 * navigation bar and the QR-code container are visible, and what the
 * container currently shows. An uncaught exception ends a handler early and
 * leaves the state as it was at the throw; the methods return it as TypeError.
 */
module QrPage {
  import opened Wrappers
  import opened Strings
  import opened Lookups
  import opened Objects
  import opened Records
  import opened Display

  /** How one run of a handler ended. */
  datatype Outcome =
    | Done               // ran to the end
    | NothingFoundAlert  // "No ENS name found": `resolveRecords` returned nothing
    | Ignored            // a click on a disabled button, which the browser never dispatches
    | TypeError          // an uncaught TypeError stopped the handler

  /** The labels `updateQRCode` gives the keys; `dWebLink` has none. */
  function FriendlyName(k: Key): Option<string> {
    match k
    case EnsName => Some("ENS Name")
    case EthAddress => Some("Ethereum Address")
    case TwitterName => Some("Twitter")
    case TelegramName => Some("Telegram")
    case GithubName => Some("Github")
    case EmailAddress => Some("Email")
    case Url => Some("URL")
    case DWebLink => None
  }

  /** `friendlyKeyNames[key] || key`: the heading shown above a QR code. */
  function Title(k: Key): (t: string)
    ensures t == KeyName(k) <==> FriendlyName(k).None?
    ensures FriendlyName(k).Some? ==> t == FriendlyName(k).value
    ensures t != ""
  {
    match FriendlyName(k)
    case Some(n) => n
    case None => KeyName(k)
  }

  /** What the QR-code container shows: a heading and the encoded payload. */
  datatype Shown = Shown(title: string, payload: string)

  function Render(it: Item): Shown {
    Shown(Title(it.key), it.value)
  }

  class Page {
    var qrDataArray: seq<Item>
    var qrIndex: int
    var prevDisabled: bool
    var nextDisabled: bool
    var navigationVisible: bool
    var qrCodesVisible: bool
    var shown: Option<Shown>

    /** The cursor is on an item, the page shows that item and the buttons agree with the cursor. */
    predicate Consistent()
      reads this
    {
      0 <= qrIndex < |qrDataArray| &&
      shown == Some(Render(qrDataArray[qrIndex])) &&
      prevDisabled == (qrIndex == 0) &&
      nextDisabled == (qrIndex == |qrDataArray| - 1)
    }

    /** The page as loaded: `qrIndex = 0`, `qrDataArray = []`; the markup's initial flags are given. */
    constructor (prevDisabled0: bool, nextDisabled0: bool, navigationVisible0: bool, qrCodesVisible0: bool)
      ensures qrDataArray == [] && qrIndex == 0 && shown == None
      ensures prevDisabled == prevDisabled0 && nextDisabled == nextDisabled0
      ensures navigationVisible == navigationVisible0 && qrCodesVisible == qrCodesVisible0
    {
      qrDataArray := [];
      qrIndex := 0;
      prevDisabled := prevDisabled0;
      nextDisabled := nextDisabled0;
      navigationVisible := navigationVisible0;
      qrCodesVisible := qrCodesVisible0;
      shown := None;
    }

    /** `updateNavigationButtons`: prev is disabled on the first item, next on the last. */
    method UpdateNavigationButtons()
      modifies this`prevDisabled, this`nextDisabled
      ensures prevDisabled == (qrIndex == 0)
      ensures nextDisabled == (qrIndex == |qrDataArray| - 1)
    {
      prevDisabled := qrIndex == 0;
      nextDisabled := qrIndex == |qrDataArray| - 1;
    }

    /**
     * `updateQRCode`: clears the container and shows the item under the cursor;
     * with the cursor off the array, destructuring `undefined` throws after the
     * container was cleared and before the buttons are updated.
     */
    method UpdateQRCode() returns (o: Outcome)
      modifies this`shown, this`prevDisabled, this`nextDisabled
      ensures o == Done || o == TypeError
      ensures 0 <= qrIndex < |qrDataArray| ==> o == Done && Consistent()
      ensures !(0 <= qrIndex < |qrDataArray|) ==>
        o == TypeError && shown == None &&
        prevDisabled == old(prevDisabled) && nextDisabled == old(nextDisabled)
    {
      shown := None;
      if !(0 <= qrIndex < |qrDataArray|) {
        return TypeError;
      }
      var it := qrDataArray[qrIndex];
      shown := Some(Render(it));
      UpdateNavigationButtons();
      o := Done;
    }

    /** The four `if (key === ...)` rewrites of a kept value, one after the other. */
    static method Prefixed(key: Key, v: string) returns (value: string)
      ensures value == Format(key, v)
    {
      value := v;
      if key == TwitterName { value := "https://twitter.com/" + value; }
      if key == TelegramName { value := "https://t.me/" + value; }
      if key == GithubName { value := "https://github.com/" + value; }
      if key == EmailAddress { value := "mailto:" + value; }
    }

    /**
     * `generateQRCodeForEachKeyValuePair`: empties `qrDataArray`, pushes the
     * items of `data` in property order, shows the navigation after each push,
     * then puts the cursor on the first item and shows it.
     */
    method GenerateQRCodeForEachKeyValuePair(data: seq<Entry>) returns (o: Outcome)
      modifies this
      ensures o == Done || o == TypeError
      ensures qrDataArray == Derive(data).items
      ensures navigationVisible == (old(navigationVisible) || qrDataArray != [])
      ensures qrCodesVisible == old(qrCodesVisible)
      ensures Derive(data).Crashed? ==>
        o == TypeError && qrIndex == old(qrIndex) && shown == old(shown) &&
        prevDisabled == old(prevDisabled) && nextDisabled == old(nextDisabled)
      ensures Derive(data).Finished? ==> qrIndex == 0 && (o == Done <==> qrDataArray != [])
      ensures Derive(data).Finished? && qrDataArray != [] ==> Consistent() && prevDisabled
      ensures Derive(data).Finished? && qrDataArray == [] ==>
        shown == None && prevDisabled == old(prevDisabled) && nextDisabled == old(nextDisabled)
    {
      qrDataArray := [];
      for i := 0 to |data|
        invariant Derive(data[..i]) == Finished(qrDataArray)
        invariant navigationVisible == (old(navigationVisible) || qrDataArray != [])
        invariant qrIndex == old(qrIndex) && shown == old(shown) && qrCodesVisible == old(qrCodesVisible)
        invariant prevDisabled == old(prevDisabled) && nextDisabled == old(nextDisabled)
      {
        DeriveStep(data, i);
        var key := data[i].key;
        if data[i].value.Undefined? {
          // `value.includes` on `undefined`
          DeriveStopped(data, i + 1);
          return TypeError;
        }
        var value := data[i].value.s;
        if Contains(value, NotFound) {
          continue;
        }
        if key == EthAddress && value == ZeroAddress {
          continue;
        }
        value := Prefixed(key, value);
        qrDataArray := qrDataArray + [Item(key, value)];
        navigationVisible := |qrDataArray| > 0;
      }
      assert data[..|data|] == data;
      qrIndex := 0;
      o := UpdateQRCode();
    }

    /**
     * The submit handler: hides the navigation and the QR codes, resolves the
     * name from the six lookups, and hands `{ ensName, ...results }` to the
     * deriver; the QR codes are shown again only if that ran to the end.
     */
    method Submit(name: string, answers: Answers) returns (o: Outcome)
      modifies this
      ensures NothingFound(SettleAll(answers)) ==>
        o == NothingFoundAlert && !navigationVisible && !qrCodesVisible &&
        qrDataArray == old(qrDataArray) && qrIndex == old(qrIndex) && shown == old(shown) &&
        prevDisabled == old(prevDisabled) && nextDisabled == old(nextDisabled)
      ensures !NothingFound(SettleAll(answers)) ==>
        qrDataArray == SubmittedItems(name, SettleAll(answers)).items &&
        navigationVisible == (qrDataArray != []) &&
        (o == Done <==> EndsWith(name, ".eth") && qrDataArray != []) &&
        (o == Done <==> qrCodesVisible) &&
        (o == Done ==> qrIndex == 0 && Consistent())
      ensures !NothingFound(SettleAll(answers)) ==> o == Done || o == TypeError
      ensures !NothingFound(SettleAll(answers)) && !EndsWith(name, ".eth") ==>
        o == TypeError && qrIndex == old(qrIndex) && shown == old(shown) &&
        prevDisabled == old(prevDisabled) && nextDisabled == old(nextDisabled)
      ensures !NothingFound(SettleAll(answers)) && EndsWith(name, ".eth") && qrDataArray == [] ==>
        qrIndex == 0 && shown == None &&
        prevDisabled == old(prevDisabled) && nextDisabled == old(nextDisabled)
      ensures o != Ignored
    {
      navigationVisible := false;
      qrCodesVisible := false;
      var raw := SettleAll(answers);
      var results := ResolveRecords(name, raw);
      if results.None? {
        return NothingFoundAlert;
      }
      DerivesIffEthName(name, raw);
      var output := Output(name, results.value);
      o := GenerateQRCodeForEachKeyValuePair(output);
      if o == Done {
        qrCodesVisible := true;
      }
    }

    /** A click on prev: ignored while the button is disabled, otherwise `qrIndex--` and redraw. */
    method PressPrev() returns (o: Outcome)
      modifies this`qrIndex, this`shown, this`prevDisabled, this`nextDisabled
      ensures old(prevDisabled) ==> o == Ignored && qrIndex == old(qrIndex) && shown == old(shown) &&
                                    prevDisabled && nextDisabled == old(nextDisabled)
      ensures !old(prevDisabled) ==> qrIndex == old(qrIndex) - 1 && o != Ignored
      ensures old(Consistent()) && !old(prevDisabled) ==> o == Done && Consistent()
      ensures !old(prevDisabled) && 0 <= qrIndex < |qrDataArray| ==> o == Done && Consistent()
      ensures !old(prevDisabled) && !(0 <= qrIndex < |qrDataArray|) ==>
        o == TypeError && shown == None &&
        prevDisabled == old(prevDisabled) && nextDisabled == old(nextDisabled)
    {
      if prevDisabled {
        return Ignored;
      }
      qrIndex := qrIndex - 1;
      o := UpdateQRCode();
    }

    /** A click on next: ignored while the button is disabled, otherwise `qrIndex++` and redraw. */
    method PressNext() returns (o: Outcome)
      modifies this`qrIndex, this`shown, this`prevDisabled, this`nextDisabled
      ensures old(nextDisabled) ==> o == Ignored && qrIndex == old(qrIndex) && shown == old(shown) &&
                                    nextDisabled && prevDisabled == old(prevDisabled)
      ensures !old(nextDisabled) ==> qrIndex == old(qrIndex) + 1 && o != Ignored
      ensures old(Consistent()) && !old(nextDisabled) ==> o == Done && Consistent()
      ensures !old(nextDisabled) && 0 <= qrIndex < |qrDataArray| ==> o == Done && Consistent()
      ensures !old(nextDisabled) && !(0 <= qrIndex < |qrDataArray|) ==>
        o == TypeError && shown == None &&
        prevDisabled == old(prevDisabled) && nextDisabled == old(nextDisabled)
    {
      if nextDisabled {
        return Ignored;
      }
      qrIndex := qrIndex + 1;
      o := UpdateQRCode();
    }
  }
}
