# ens2qr record pipeline in Dafny

A model of the logic of the ens2qr page: it looks up an ENS name's address
and five text records, normalises them into a record set with "… not found"
placeholders, derives the list of `{key, value}` items to show as QR codes,
and lets the user step through that list with prev/next buttons. Both the
current page (`app.js`) and its earlier variant (`test1/app.js`) are modelled.

The network is not modelled. Each of the six lookups is given as what it came
to, `Answered(v)` or `Threw`; as in `getRecord` and `getAddress`, a throw is
caught and becomes `''`.

Modules, one per part of the program:

- `Strings`: the `endsWith` and `includes` tests the page performs, with
  `includes` proved equal to "occurs at some index"; `StartsWith` is a helper
  for stating `Contains` and the gateway link.
- `Lookups`: the six fields, lookups and their failure-to-`''` contract, the
  placeholders, and the `||` fallback.
- `Objects`: JavaScript objects as ordered property lists. Assignment
  replaces a key in place or appends it, and spread is a sequence of
  assignments.
- `Records`: `resolveRecords` of `app.js`, the gateway link and the
  `{ ensName, ...results }` object of the submit handler.
- `Display`: what `generateQRCodeForEachKeyValuePair` pushes, as the function
  `Derive`, with lemmas: it is an order-preserving filter-and-format, no
  placeholder is shown, and it crashes on an `undefined` property.
- `QrPage`: the class `Page` holding the module-level state (`qrDataArray`,
  `qrIndex`, button and visibility flags, what is shown). It has the submit
  handler, the deriver loop, `updateQRCode`, `updateNavigationButtons` and
  the prev/next handlers as methods.
- `Test1Records`: `resolveRecords` and the printed object of `test1/app.js`.

Behaviour of the code that is easy to misread:

- In `app.js` an empty address (a failed address lookup) is not turned into
  `'Address not found'`. Only the exact zero address is. For a `.eth` name
  the empty address then becomes a displayed item with an empty payload
  (`Display.FieldShown`: an empty address is displayable).
- `dWebLink` is not left out for names outside `.eth`. It is an own property
  whose value is `undefined`, and `value.includes` throws on it. So for such
  names the deriver stops with a TypeError right after the `ensName` turn,
  which pushes the name unless it contains "not found" (as the placeholder
  for an empty name does). `qrIndex` is then not reset and nothing is drawn
  (`Display.DerivesIffEthName`, `QrPage.Page.Submit`).
- The name itself (`ensName`) is one of the items, so a record set yields up
  to 8 items, not 7.
- When every property is skipped, `updateQRCode` reads `qrDataArray[0]` of an
  empty array and throws. `QrPage.Page.UpdateQRCode` returns TypeError in that
  case.

## Model

| member | source | states |
|---|---|---|
| `Strings.ContainsIffOccurs` | app.js:207 | `includes` (recursive `Contains`) holds exactly when the pattern occurs at some index, both directions |
| `Lookups.Settle` | app.js:77-104 | a lookup that threw settles to `''`, an answered one to its answer |
| `Lookups.SettleAll` | app.js:127-135 | after `Promise.all` each of the six fields is its own lookup, settled |
| `Lookups.ThrowIsLocal` | app.js:85-88 | making one lookup throw empties exactly that field and leaves the other five unchanged |
| `Lookups.Sentinel` | app.js:153-158 | every placeholder is non-empty and contains "not found" |
| `Lookups.OrSentinel` | app.js:154-158 | the logical-or fallback is never empty: the value when non-empty, else the field's placeholder |
| `Objects.Put` | app.js:190-193 | assigning a new key appends it; assigning the first occurrence of an existing key replaces it in place |
| `Objects.SpreadFresh` | test1/app.js:150-153 | spreading properties that all come after the object's own in declaration rank (so every key is new) appends them in their own order |
| `Records.DWebLinkFor` | app.js:148 | a link exists iff the name ends in `.eth`; it is an `https://` URL ending in `.eth.limo` from which the name can be read back |
| `Records.ResolveRecords` | app.js:137-159 | nothing is returned iff the address is the zero address or empty and all five texts are empty; otherwise the link is `DWebLinkFor(name)`, `ensName` is the name, or `'ENS Name not found'` for an empty name, each text is its logical-or fallback, the address is the placeholder iff it was the zero address (or the placeholder text), any other address is kept (also `''`), and the zero address never survives |
| `Records.RecoverRoundTrip` | app.js:150-159 | unless a lookup returned its own placeholder text, the lookups can be recovered from the record set (normalisation loses nothing else) |
| `Records.Results` | app.js:150-159 | the returned object has 8 properties, in the declared key order |
| `Records.OutputIsResults` | app.js:190-193 | `{ ensName, ...results }` equals the returned object: `ensName` first with the normalised name, then `dWebLink` and the six fields in order |
| `Display.Format` | app.js:210-213 | the payload is the key's prefix (twitter, t.me, github URL, `mailto:`, or nothing) followed by the value, which can be read back |
| `Display.FormatKeepsPlaceholders` | app.js:207-213 | a formatted payload contains "not found" iff the raw value does |
| `Display.Derive` | app.js:203-217 | the loop pushes at most one item per property |
| `Display.DeriveAppend` | app.js:205-217 | the loop over `a + b` is the loop over `a` then, unless it threw, over `b`, with the items concatenated |
| `Display.DeriveStep` | app.js:205-214 | one turn of the loop pushes the formatted value, skips it, or throws on `undefined` |
| `Display.DeriveStopped` | app.js:206-207 | after a throw later properties change nothing |
| `Display.DeriveFinishedIff` | app.js:205-207 | the loop finishes iff no property is `undefined` |
| `Display.DeriveSound` | app.js:205-214 | every item is the formatted value of a property that is neither a placeholder nor a zero `ethAddress` |
| `Display.DeriveComplete` | app.js:205-214 | when the loop finishes, every such property is pushed |
| `Display.DeriveOrdered` | app.js:205-214 | items keep the order of their properties (strictly increasing key rank) |
| `Display.NoPlaceholderShown` | app.js:207-214 | no item's payload contains "not found" |
| `Display.DeriveEntry` | app.js:205-214 | with distinct keys a property is shown iff it is not skipped, and only as its formatted value |
| `Display.DerivesIffEthName` | app.js:148-207 | for a found record the deriver finishes iff the name ends in `.eth`; otherwise it leaves only the `ensName` item (if that is not a placeholder) |
| `Display.FieldShown` | app.js:153-214 | for a `.eth` name each field is shown iff its lookup is displayable (non-empty text / non-zero address, no "not found"), and then as the formatted lookup value; an empty address is shown |
| `Display.NameShown` | app.js:148-214 | for a `.eth` name the name and its gateway link are shown iff they do not contain "not found", and the name comes first |
| `QrPage.Title` | app.js:230-244 | for the seven keys with a friendly name the heading is that name; the raw key is shown exactly for `dWebLink`; never empty |
| `QrPage.Page.constructor` | app.js:200-201 | the page starts with `qrIndex = 0` and an empty `qrDataArray` |
| `QrPage.Page.UpdateNavigationButtons` | app.js:273-276 | prev is disabled iff `qrIndex == 0`, next iff `qrIndex == length - 1` |
| `QrPage.Page.UpdateQRCode` | app.js:224-271 | with the cursor on an item the page shows it and the buttons agree (`Consistent`); otherwise it throws after clearing the container |
| `QrPage.Page.GenerateQRCodeForEachKeyValuePair` | app.js:203-221 | `qrDataArray` becomes `Derive(data).items` and earlier contents do not survive; the navigation is shown iff something was pushed; on a finished loop the cursor is 0 and the first item is shown; on a throw cursor, buttons and view are untouched |
| `QrPage.Page.Submit` | app.js:177-196 | nothing found: alert, state untouched, navigation and codes hidden; otherwise the items are those of the resolved output, and the handler completes (codes shown, cursor 0, consistent) iff the name ends in `.eth` and some item was pushed; otherwise the outcome is TypeError, for a name outside `.eth` the cursor, what is shown and both buttons keep their old values; for a `.eth` name with every item skipped the cursor is 0, nothing is shown and both buttons keep their old values |
| `QrPage.Page.PressPrev` | app.js:297-300 | a disabled prev is ignored; otherwise `qrIndex` drops by exactly 1; a cursor left on the array draws its item and leaves the page consistent, a cursor off the array clears the view and throws with the buttons untouched |
| `QrPage.Page.PressNext` | app.js:302-305 | a disabled next is ignored; otherwise `qrIndex` grows by exactly 1; a cursor left on the array draws its item and leaves the page consistent, a cursor off the array clears the view and throws with the buttons untouched |
| `Test1Records.ResolveRecords` | test1/app.js:136-143 | each of the six fields is its logical-or fallback and never empty; the zero address passes through, an empty address becomes `'Address not found'` |
| `Test1Records.FailedLookupShowsSentinel` | test1/app.js:77-104 | a lookup that throws shows its placeholder and the other fields are unaffected |
| `Test1Records.ResolveIdempotent` | test1/app.js:137-142 | applying the fallbacks twice is the same as once |
| `Test1Records.Results` | test1/app.js:136-143 | the returned object has exactly the six fields, in order, each holding that field's normalised string, and no `dWebLink` |
| `Test1Records.PrintedShape` | test1/app.js:146-154 | the printed object is the typed name followed by the six fields in order (7 properties) |

## Left out

- The ethers provider, the registry and resolver contracts, their ABIs and the `resolver`/`addr`/`text` calls: these are network calls. Each lookup is an input `Answered(v)` or `Threw`.
- The ENS namehash (the "Namehash algorithm" section of EIP-137): it is computed by the ethers library, which is not part of this model.
- `Promise.all` concurrency: the six lookups are independent, so they are taken as a tuple.
- DOM rendering, `QRCode.toCanvas`, `console.error`, `setLoading` and the `innerHTML` text: these are UI and foreign calls. The container is modelled as the last `Shown(title, payload)`, and the navigation bar and QR container as booleans. The "No ENS name found" alert is the outcome `NothingFoundAlert`.
- The initial `disabled` and visibility state of the markup: the HTML is not part of this model, so the constructor takes those flags as parameters.
- Clicks on a disabled button: the browser does not dispatch them. The model returns `Ignored` without touching state instead of running the handler.
- `JSON.stringify` formatting in `test1/app.js`: the model stops at the printed object's ordered properties.
- The commented-out submit handler at app.js:164-175 is dead code.
- Overlapping submissions: the page never cancels a submission that is still in flight. Each `Submit` is modelled as one atomic step, so a stale submission landing after a newer one is not captured.
