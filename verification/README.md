# Le Spécial Goût storefront: a Dafny model of its state logic

Le Spécial Goût is a React restaurant storefront with a small admin console. Most of its code is markup. What this project models is the logic inside its event handlers:

- **cart and favourites:**
  - the add, update and remove handlers of the storefront page and of the cart route;
  - the favourites toggle;
  - the quantity counter on each catalogue card.
- **price totals:** a price label such as `"8500 FCFA"` is read by deleting every non-digit character and parsing the rest. The cart screen and the cart popup both total the lines this way. The cart screen also assembles the order text line by line.
- **admin realtime lists:** the INSERT, UPDATE and DELETE events that keep the dashboard's `categories` and `foodItems` lists in step with the database, plus the initial fetch.
- **admin editors:**
  - the ordered validation chain for dishes;
  - the trim-based check and trimmed payload for categories;
  - the field handlers and the add, update and delete submissions of both editors.
- **small UI state machines:**
  - notifications (mark all read, dismiss, unread count);
  - the FAQ accordion and the contact form;
  - the settings switches;
  - the order accordion and the status labels;
  - profile edit, cancel and submit;
  - the onboarding steps;
  - the banner rotation.
- **catalogue views and data:**
  - the category, region and search filters of the groceries, home, menu and specialties pages;
  - the heart on each card;
  - the constant catalogue itself.

How the source maps onto Dafny:

- Pure handlers (`map`, `filter`, spread, `reduce`) are functions over datatypes.
- Handlers that mutate a copied array (`splice`, indexed assignment) are methods.
- Code that appends to a string in a loop is a method with a `while` loop.
- Components whose handlers update several state fields together are classes with `modifies` clauses:
  - the card counter;
  - the checkout form;
  - the two admin editors;
  - the profile page;
  - the onboarding screens.
- Database calls, toasts and navigation are turned into values. The database's answer (an optional error message) is a parameter. The request that would be sent, the toast text and the navigation target are returned.

Three behaviours of the code shape the model:

- **A label with no digit.** The code calls `parseInt('')`, which is NaN, and NaN then propagates through every sum. The model reads a label as `Option<nat>` and a total as `Option<int>`, with `None` standing for NaN.
- **Realtime INSERT.** The code appends `payload.new` with no duplicate check, so `Admin.Apply` appends too. `Admin.InsertAppends` states exactly when ids stay unique.
- **No aggregate counters.** The code keeps no counters beside the lists, so none are modelled.

## Model

| member | source | states |
|---|---|---|
| KeyedLists.HasId | src/pages/Index.tsx:48 | `some(x => x.id === id)` holds exactly when some index carries the id |
| KeyedLists.FindIndex | src/pages/Index.tsx:67 | the first index holding the id, or -1 exactly when the id is absent; no earlier index holds it |
| KeyedLists.RemoveId | src/pages/Index.tsx:96 | `filter(x => x.id !== id)` leaves no record with the id, keeps every other record, and shortens the list exactly when the id was present |
| KeyedLists.RemoveIdIsFilter | src/pages/Index.tsx:96 | removing an id is exactly `filter` with the test "another id" |
| KeyedLists.RemoveIdKeepsCopies | src/pages/Index.tsx:96 | every copy of a record with another id survives, duplicates included, and no copy of a record with the id does |
| KeyedLists.RemoveIdIsSublist | src/pages/Index.tsx:96 | the filtered list keeps the surviving records in their original order |
| KeyedLists.RemoveIdKeepsUnique | src/pages/Index.tsx:96 | filtering keeps ids unique |
| KeyedLists.Filter | src/pages/Courses.tsx:23-27 | `filter(p)` keeps a record exactly when it satisfies `p`, in order; an all-true test returns the list and an all-false test returns [] |
| KeyedLists.FilterKeepsCopies | src/pages/Courses.tsx:23-27 | `filter(p)` keeps each record passing `p` exactly as many times as the list holds it, and drops every copy of the others |
| IndexPage.QuantityOf | src/pages/Index.tsx:67 | the quantity of the cart line with an id, or none exactly when no line has that id |
| IndexPage.AddToCart | src/pages/Index.tsx:66-92 | the following cases, selected by `findIndex`: present with quantity 0 removes exactly that line (`splice`); present with any other quantity, negatives included, sets only that line's quantity; absent with a positive quantity appends `{...item, quantity}` at the end; absent with quantity ≤ 0 leaves the cart as it was. Ids stay unique; on a cart with unique ids the line's quantity read back afterwards is the one requested, or none after a removal or an ignored add |
| IndexPage.RemoveFromCart | src/pages/Index.tsx:95-97 | every line with the id is removed and the others are kept in order; length does not grow and uniqueness is kept |
| IndexPage.UpdateQuantity | src/pages/Index.tsx:100-102 | forwards to `AddToCart`, so an absent line with a positive quantity is appended again |
| CartPage.UpdateQuantity | src/pages/CartPage.tsx:22-50 | the update-only variant: an absent id leaves the cart unchanged; quantity 0 splices out the first matching line; any other quantity sets only that line; the cart never grows and ids stay unique |
| Favorites.IsFavorite | src/pages/Index.tsx:48 | membership by id: true exactly when some entry has the item's id |
| Favorites.ToggleFavorite | src/pages/Index.tsx:47-63 | flips `IsFavorite` for the item; if the item was present, every entry with its id is removed and the rest kept in order; if it was absent, the item is appended; presence of every other id is unchanged. The specialties route (src/pages/SpecialWrapper.tsx:12-28) uses the same toggle |
| Favorites.ToggleTwiceRestores | src/pages/Index.tsx:47-63 | toggling an absent item twice returns the original list |
| Favorites.ToggleTwiceFromPresent | src/pages/SpecialWrapper.tsx:12-28 | toggling a present item twice leaves the other entries in order and the item last |
| Favorites.TwoMafesAreDistinct | src/data/food-data.ts:21-113 | the two dishes named "Mafé" have ids f2 and af2, and favouriting one does not mark the other |
| Favorites.FavoriteMarks | src/pages/Courses.tsx:59 | each card's heart is on exactly when the favourites hold an entry with its id |
| Favorites.ToggleFlipsMarks | src/pages/Home.tsx:49 | a toggle flips the heart of every card with the toggled id and of no other card |
| SpecialWrapper.HandleAddToCart | src/pages/SpecialWrapper.tsx:31-37 | the no-op add handler leaves the favourites as they are; its toast is titled "Article ajouté" and its text reads back the quantity and ends with `x <name> ajouté au panier` |
| SpecialWrapper.QuantityReadsBack | src/pages/SpecialWrapper.tsx:35 | the leading number of the toast text is the quantity that was added |
| FoodItemCard.Card.constructor | src/components/FoodItemCard.tsx:20 | a new card's counter is 0 |
| FoodItemCard.Card.Increase | src/components/FoodItemCard.tsx:29-38 | the counter goes up by one, and the parent is called with the new value |
| FoodItemCard.Card.Decrease | src/components/FoodItemCard.tsx:40-59 | at 0 nothing changes and the parent is not called; otherwise the counter goes down by one and the parent is called with the new value. The counter is a `nat`, so it is never negative |
| FoodItemCard.IncreaseThenDecrease | src/components/FoodItemCard.tsx:29-59 | + then − restores the counter; the two reports are q+1 and then q |
| Prices.DigitsFrom | src/pages/Cart.tsx:26 | `replace(/[^0-9]/g, '')` keeps only digits, and is empty exactly when the label has no digit |
| Prices.ParsePrice | src/pages/Cart.tsx:26 | `parseInt` of the digits is NaN (`None`) exactly when the label has no digit |
| Prices.PriceOfLabel | src/pages/Cart.tsx:26 | a label made of a number followed by text without digits reads back as that number |
| Prices.WellFormedPriceReads | src/pages/Cart.tsx:26 | for a label whose only digits are its leading run, stripping the non-digits gives the leading amount |
| Prices.CatalogPricesRead | src/data/food-data.ts:12-277 | every catalogue price has digits and reads as its leading amount; "3000 FCFA/kg" reads as 3000 |
| Prices.ReduceIsSum | src/pages/Cart.tsx:25-28 | the `reduce` from an accumulator equals the accumulator plus the sum of the line values |
| Prices.CartTotalIsSumOfLines | src/pages/Cart.tsx:25-28 | `totalAmount` is the sum over lines of digits × quantity |
| Prices.TotalDefinedIff | src/pages/Cart.tsx:25-28 | the total is a number exactly when every line's label has a digit |
| Prices.TwoLineTotal | src/pages/Cart.tsx:25-28 | a two-line cart totals the sum of its two line values |
| Prices.YassaPrice | src/data/food-data.ts:17 | "8500 FCFA" reads as 8500 |
| Prices.OmelettePrice | src/data/food-data.ts:91 | the catalogue's "1500 FCFA" reads as 1500 |
| Prices.TwoDishScenario | src/pages/Cart.tsx:25-28 | 2 × "8500 FCFA" plus 1 × "1500 FCFA" totals 18500 |
| Prices.EmptyCartTotal | src/pages/Cart.tsx:25-28 | an empty cart totals 0 |
| CartView.QuantityChange | src/pages/Cart.tsx:34-41 | `max(0, q + change)`: exactly when it is 0, only the remove callback is made; otherwise only the update callback, with a positive quantity |
| CartView.ItemLines | src/pages/Cart.tsx:89-91 | one `- {q}x {name} ({price})` line per cart line, in cart order |
| CartView.OrderLines | src/pages/Cart.tsx:83-93 | the order text line by line: seven header lines, one line per cart line at position 7+i, an empty line, and `*Total:* {total} FCFA` |
| CartView.HeaderText | src/pages/Cart.tsx:83-87 | the five header appends produce the seven header lines joined by newlines |
| CartView.BuildOrderMessage | src/pages/Cart.tsx:83-93 | the message built with `+=` in the loop equals the order lines joined by newlines |
| CartView.Checkout.constructor | src/pages/Cart.tsx:18-23 | the form starts hidden with three empty inputs |
| CartView.Checkout.Open | src/pages/Cart.tsx:177 | the "Passer la commande" button shows the form and keeps the inputs |
| CartView.Checkout.FormChange | src/pages/Cart.tsx:43-46 | only the named input changes |
| CartView.Checkout.SubmitOrder | src/pages/Cart.tsx:79-113 | while any of the three `required` inputs is empty the submission is refused: nothing is sent and the form is unchanged; otherwise returns the order text of the inputs as they were, then hides the form and empties all three inputs |
| CartPopup.SummaryLines | src/components/CartPopup.tsx:43-48 | one line per cart line with its name, quantity and digits × quantity |
| CartPopup.Render | src/components/CartPopup.tsx:18-66 | nothing is shown when not visible; the total is the same sum as the cart screen; the checkout button is disabled, and the empty message shown, exactly when there are no items; an empty cart totals 0 |
| CartPopup.SubtotalsAddUpToTotal | src/components/CartPopup.tsx:21-57 | the subtotals shown add up to the total shown |
| Admin.Apply | src/pages/Admin.tsx:61-71 | INSERT appends; UPDATE replaces every row with the new id, in place; DELETE filters out the old id; any other event leaves the list |
| Admin.InsertAppends | src/pages/Admin.tsx:61-62 | the inserted row is last and the earlier rows are untouched; ids stay unique exactly when the id was absent, since there is no duplicate check |
| Admin.UpdateKeepsIds | src/pages/Admin.tsx:63-66 | UPDATE keeps the set of ids; an absent id leaves the list unchanged; a present id puts the new row in the list |
| Admin.UpdateIdempotent | src/pages/Admin.tsx:85-88 | replaying an UPDATE changes nothing more |
| Admin.DeleteRemoves | src/pages/Admin.tsx:89-92 | after DELETE no row has the id; every copy of every other row is kept, duplicates from repeated INSERTs included, in order; uniqueness is kept |
| Admin.InsertThenDeleteRestores | src/pages/Admin.tsx:61-70 | inserting a row with a new id and deleting it restores the list |
| Admin.OnChange | src/pages/Admin.tsx:55-96 | a category event never changes `foodItems`, and a food-item event never changes `categories` |
| Admin.InitialLoad | src/pages/Admin.tsx:17-47 | null data becomes []; a failed category fetch leaves both lists empty and reports its message; a failed food fetch keeps the categories |
| Toasts.Outcome | src/components/admin/FoodItemManager.tsx:128-137 | after a database call the toast is "Succès" with the success text when there is no error, and "Erreur" with the error's message otherwise |
| FoodItemManager.Validate | src/components/admin/FoodItemManager.tsx:94-102 | returns null exactly when every check passes |
| FoodItemManager.ValidateMessages | src/components/admin/FoodItemManager.tsx:95-100 | each message is returned exactly when its check fails and all earlier checks pass; an empty price is "obligatoire" before the numeric check runs |
| FoodItemManager.FirstFailureMeaning | src/components/admin/FoodItemManager.tsx:94-101 | the reference "first failing check" reports a failing check with no failing predecessor, and reports nothing exactly when none fails |
| FoodItemManager.ValidateIsFirstFailure | src/components/admin/FoodItemManager.tsx:94-101 | the chain equals the first failure over the checks name, description, price present, price numeric, image, category |
| FoodItemManager.WhitespaceNameRejected | src/components/admin/FoodItemManager.tsx:95 | a name made only of whitespace is rejected as missing |
| FoodItemManager.SpecialNotValidated | src/components/admin/FoodItemManager.tsx:94-102 | `is_special` never affects validation |
| FoodItemManager.DefaultRecordInvalid | src/components/admin/FoodItemManager.tsx:50-57 | the default record fails on its name |
| FoodItemManager.PriceExamples | src/components/admin/FoodItemManager.tsx:98 | `parseFloat` reads "12 FCFA" and " -.5" as numbers and "FCFA" as NaN |
| FoodItemManager.SetText | src/components/admin/FoodItemManager.tsx:68-83 | `{...record, [name]: value}` changes exactly the named text field |
| FoodItemManager.Manager.constructor | src/components/admin/FoodItemManager.tsx:60-63 | the editor starts with the default record, no edit record, and both dialogs closed |
| FoodItemManager.Manager.TextChange | src/components/admin/FoodItemManager.tsx:68-83 | one field of either the add record or the edit record changes, never both |
| FoodItemManager.Manager.SpecialChange | src/components/admin/FoodItemManager.tsx:85-92 | the checkbox sets `is_special` of either record, never both |
| FoodItemManager.Manager.OpenAdd | src/components/admin/FoodItemManager.tsx:300-306 | the "Ajouter un plat" trigger opens the add dialog and changes nothing else |
| FoodItemManager.Manager.CancelAdd | src/components/admin/FoodItemManager.tsx:315 | "Annuler" closes the add dialog and keeps the record typed so far |
| FoodItemManager.Manager.StartEdit | src/components/admin/FoodItemManager.tsx:366-371 | the pencil, a trigger of the edit dialog, makes the row the edit record and opens the edit dialog; the add record and the add dialog are unchanged |
| FoodItemManager.Manager.CancelEdit | src/components/admin/FoodItemManager.tsx:385 | "Annuler" closes the edit dialog and keeps the edit record |
| FoodItemManager.Manager.AddFoodItem | src/components/admin/FoodItemManager.tsx:104-141 | a failed validation raises its message and sends nothing; otherwise the record is sent; success resets it to the default record and closes the dialog, a database error keeps both |
| FoodItemManager.Manager.UpdateFoodItem | src/components/admin/FoodItemManager.tsx:143-180 | the same validation on the edit record; the record is sent only when it passes; success closes the edit dialog |
| FoodItemManager.Manager.DeleteFoodItem | src/components/admin/FoodItemManager.tsx:182-205 | the id is sent unchecked; the toast reports success or the error's message |
| FoodItemManager.EditThenUpdate | src/components/admin/FoodItemManager.tsx:143-180 | a pencil press then "Mettre à jour" sends the row exactly when it passes validation; the edit dialog is open afterwards exactly when validation failed or the database reported an error |
| CategoryManager.AddPayload | src/components/admin/CategoryManager.tsx:48-61 | no insert exactly when the name is blank after trimming; otherwise the name sent is the trimmed name: non-empty, a slice of what was typed, with no whitespace at its ends and only whitespace around it |
| CategoryManager.AddPayloadStable | src/components/admin/CategoryManager.tsx:61 | a name that was sent would be sent unchanged again |
| CategoryManager.UpdatePayload | src/components/admin/CategoryManager.tsx:83-97 | nothing is sent without an edit record or with a blank name; otherwise `{name: trimmed}` is sent for the edit record's id |
| CategoryManager.PaddedNameTrimmed | src/components/admin/CategoryManager.tsx:61 | "  Boissons " is sent as "Boissons" |
| CategoryManager.Manager.constructor | src/components/admin/CategoryManager.tsx:40-45 | the editor starts with an empty name, no edit record and both dialogs closed |
| CategoryManager.Manager.OpenAdd | src/components/admin/CategoryManager.tsx:147-153 | the "Ajouter une catégorie" trigger opens the add dialog and changes nothing else |
| CategoryManager.Manager.CancelAdd | src/components/admin/CategoryManager.tsx:167 | "Annuler" closes the add dialog and keeps the name typed so far |
| CategoryManager.Manager.NewNameChange | src/components/admin/CategoryManager.tsx:161 | typing in the add dialog changes only the new name |
| CategoryManager.Manager.StartEdit | src/components/admin/CategoryManager.tsx:197-202 | the pencil, a trigger of the edit dialog, makes the row the edit record and opens the edit dialog; the typed name and the add dialog are unchanged |
| CategoryManager.Manager.CancelEdit | src/components/admin/CategoryManager.tsx:221 | "Annuler" closes the edit dialog and keeps the edit record |
| CategoryManager.Manager.AddCategory | src/components/admin/CategoryManager.tsx:47-80 | sends `AddPayload` of the typed name; a blank name raises "ne peut pas être vide"; success clears the input and closes the dialog |
| CategoryManager.Manager.UpdateCategory | src/components/admin/CategoryManager.tsx:82-112 | sends `UpdatePayload` of the edit record; success closes the edit dialog |
| CategoryManager.Manager.EditNameChange | src/components/admin/CategoryManager.tsx:215 | typing changes only the edit record's name |
| CategoryManager.Manager.DeleteCategory | src/components/admin/CategoryManager.tsx:117-140 | the id is sent unchecked; the toast reports success or the error |
| CategoryManager.OpenThenAdd | src/components/admin/CategoryManager.tsx:47-80 | opening the add dialog, typing and pressing "Ajouter" sends `AddPayload` of the typed name; the dialog stays open exactly when the name was blank or the database reported an error, and the input empties exactly on success |
| Notifications.UnreadCount | src/components/NotificationModal.tsx:61 | at most the length; 0 exactly when all are read; the length exactly when none is |
| Notifications.MarkAllAsRead | src/components/NotificationModal.tsx:39-43 | every notification is read, and length, order and all other fields are kept |
| Notifications.MarkAllAsReadClears | src/components/NotificationModal.tsx:39-61 | afterwards the unread count is 0, and marking again changes nothing |
| Notifications.RemoveNotification | src/components/NotificationModal.tsx:45-47 | every entry with the id is removed, the rest kept in order |
| Notifications.RemoveReadKeepsCount | src/components/NotificationModal.tsx:45-61 | dismissing never raises the unread count, and dismissing read entries keeps it |
| Notifications.InitialCounts | src/components/NotificationModal.tsx:15-37 | the panel starts with 3 notifications with distinct ids, 2 of them unread |
| Support.ToggleFaq | src/pages/Support.tsx:44-51 | only entry `index` flips `isOpen`; the length and every question and answer are kept |
| Support.ToggleFaqTwice | src/pages/Support.tsx:44-51 | toggling the same index twice is the identity |
| Support.ToggleFaqOutOfRange | src/pages/Support.tsx:46 | an index outside the list changes nothing |
| Support.ToggleFaqChangesOne | src/pages/Support.tsx:44-51 | every entry other than the pressed one is left exactly as it was |
| Support.InitialFaqsClosed | src/pages/Support.tsx:16-42 | the five questions all start closed |
| Support.Submit | src/pages/Support.tsx:53-62 | a message that is blank after trimming is not sent and stays; any other is sent and the box is emptied |
| Support.SubmitTwiceSendsOnce | src/pages/Support.tsx:53-62 | a second press right after a send sends nothing |
| Settings.Switch | src/pages/Settings.tsx:26-39 | a switch can be read by name exactly for the six names the page uses |
| Settings.SettingsDeterminedBySwitches | src/pages/Settings.tsx:10-23 | the six switches, the language and the password determine the whole record |
| Settings.HandleToggle | src/pages/Settings.tsx:25-42 | the named switch flips, every other switch (nested ones included) is kept, language and password never change, and an unknown name returns the record as it was |
| Settings.HandleToggleTwice | src/pages/Settings.tsx:25-42 | toggling the same name twice is the identity |
| Settings.HandleToggleCommutes | src/pages/Settings.tsx:25-42 | two toggles give the same record in either order |
| Settings.LanguageChange | src/pages/Settings.tsx:44-46 | only the language changes |
| Settings.InitialValues | src/pages/Settings.tsx:10-23 | notifications and location tracking start on, every other switch off, language "fr" |
| Orders.StatusText | src/pages/Orders.tsx:78-89 | delivered → "Livré", pending → "En cours", cancelled → "Annulé" |
| Orders.StatusesDistinguishable | src/pages/Orders.tsx:65-89 | two statuses share a label, or a colour, only when they are equal |
| Orders.ShowsCancel | src/pages/Orders.tsx:168 | the cancel button is shown exactly for pending orders |
| Orders.OnlyLastSampleCancellable | src/pages/Orders.tsx:22-168 | among the samples only CMD-004 shows the cancel button |
| Orders.ToggleOrderExpand | src/pages/Orders.tsx:91-97 | collapses exactly when the pressed order was the expanded one; otherwise the pressed order becomes the single expanded one |
| Orders.ToggleOrderExpandTwice | src/pages/Orders.tsx:91-97 | from nothing expanded, or from the same order expanded, pressing twice restores the state |
| Orders.ToggleOrderExpandTwiceFromOther | src/pages/Orders.tsx:91-97 | from another order expanded, pressing twice leaves nothing expanded |
| Orders.TotalsAgree | src/pages/Orders.tsx:22-63 | an order whose label is its lines' sum in FCFA shows a total that reads as that sum |
| Orders.SampleTotalsMatchLines | src/pages/Orders.tsx:22-63 | every sample's stored total is the sum of digits × quantity over its lines (24500, 18700, 15500, 10200) |
| Profile.SetField | src/pages/Profile.tsx:20-26 | only the named field changes; the avatar is kept |
| Profile.SetFieldSameValue | src/pages/Profile.tsx:20-26 | writing a field's own value back leaves the record unchanged |
| Profile.ProfilePage.constructor | src/pages/Profile.tsx:9-18 | the form starts as a copy of the profile, hidden |
| Profile.ProfilePage.Change | src/pages/Profile.tsx:20-26 | typing changes the form and never the profile |
| Profile.ProfilePage.Submit | src/pages/Profile.tsx:28-36 | when the browser refuses the `type="email"` input (line 96: a non-empty value that is not a valid address) nothing changes; otherwise the form becomes the profile and is hidden |
| Profile.ProfilePage.Cancel | src/pages/Profile.tsx:139-143 | the form is hidden and reset to the profile, which is kept |
| Profile.ProfilePage.Edit | src/pages/Profile.tsx:192 | the edit button shows the form |
| Profile.EditThenCancel | src/pages/Profile.tsx:20-143 | edits followed by cancel never reach the profile |
| Profile.EditThenSubmit | src/pages/Profile.tsx:20-31 | an edit followed by submit stores exactly the edited form when its e-mail is accepted; otherwise the profile is kept and the edited form stays open |
| Profile.ValidEmailParts | src/pages/Profile.tsx:95-101 | the e-mail input's value is a valid address exactly when it is a non-empty run of allowed local characters, an "@" and a domain of dot-separated labels, as section 4.10.5.1.5 of the HTML Living Standard defines it |
| Profile.EmailExamples | src/pages/Profile.tsx:95-101 | "a@b" is accepted; "abc" and "@b" are refused |
| Onboarding.ButtonLabel | src/pages/Onboarding.tsx:101 | "Commencer" exactly on the last step, "Suivant" otherwise |
| Onboarding.Walkthrough.constructor | src/pages/Onboarding.tsx:9 | the screens open on step 0 |
| Onboarding.Walkthrough.GoToNextStep | src/pages/Onboarding.tsx:33-41 | below the last step, the step goes up by one with no navigation; on the last step, the step stays, the first visit ends and the app goes to "/"; the step stays in [0, 2] |
| Onboarding.Walkthrough.Skip | src/pages/Onboarding.tsx:43-46 | from any step, the first visit ends and the app goes to "/"; the step stays one of the three |
| Onboarding.WalkThrough | src/pages/Onboarding.tsx:33-101 | from step 0, three presses leave: two with "Suivant" and the last with "Commencer" |
| Banner.SlideCount | src/data/food-data.ts:279-283 | there are exactly 3 banner images |
| Banner.NextSlide | src/components/Banner.tsx:10-12 | within range the step is a rotation by one: the last index goes to 0 and the result stays in range |
| Banner.AfterRotates | src/components/Banner.tsx:10-12 | after k ticks the slide is the start plus k, modulo the count, so always in range |
| Banner.FullCycleReturns | src/components/Banner.tsx:10-12 | as many ticks as slides return to the starting slide |
| Banner.ActiveMarks | src/components/Banner.tsx:18-23 | a slide is drawn active exactly when its index is the active one |
| Banner.ExactlyOneActive | src/components/Banner.tsx:18-23 | exactly one slide is drawn active |
| Courses.Shown | src/pages/Courses.tsx:23-27 | an item is shown exactly when it passes the category test and the case-insensitive search on name or description; order is kept |
| Courses.EmptyQueryMatchesAll | src/pages/Courses.tsx:25-26 | an empty search hides nothing |
| Courses.QueryCaseIgnored | src/pages/Courses.tsx:25-26 | a query and its lower-case form show the same items |
| Courses.AllCategoriesAcceptsAny | src/pages/Courses.tsx:23-26 | with "Tous" selected an item is shown exactly when its lower-cased name or description contains the lower-cased search |
| Courses.InitialShowsAll | src/pages/Courses.tsx:20-21 | the page opens on "Tous" with an empty search and shows every grocery item |
| Home.OfCategory | src/pages/Home.tsx:21-23 | every dish shown has the active category, none of that category is left out, and order is kept |
| Home.Shown | src/pages/Home.tsx:19-23 | the grid holds exactly the catalogue dishes of the active category, in catalogue order |
| Home.UnknownCategoryShowsNothing | src/pages/Home.tsx:21-23 | a category no dish has shows an empty grid |
| Home.InitialCategory | src/pages/Home.tsx:16 | the page opens on "Pour vous" |
| Menu.Shown | src/pages/Menu.tsx:96-101 | any category other than 'togolese', none included, shows nothing; 'togolese' shows the specialties of the region ('all' for every one), in order |
| Menu.AllRegionsShowsEverySpecialty | src/pages/Menu.tsx:97-99 | 'togolese' with 'all' shows every Togolese specialty |
| Menu.InitialShowsNothing | src/pages/Menu.tsx:45-46 | the initial state (no category, 'all') shows no dish |
| Menu.ShownFromRegion | src/pages/Menu.tsx:97-100 | a dish shown for a specific region is a Togolese dish of that region |
| Special.Shown | src/pages/Special.tsx:88-90 | no region shows nothing; a region shows the specialties of exactly that region, in order |
| Special.Render | src/pages/Special.tsx:94-164 | the region list while none is picked; once one is picked, "Aucun plat disponible" exactly when it has no dish |
| Special.SavanesHasNoDish | src/pages/Special.tsx:81-84 | the Savanes card leads to the "no dish yet" notice |
| Special.OtherRegionsHaveDishes | src/pages/Special.tsx:56-84 | each of the four other region cards lists at least one dish |
| Catalog.IdsOfCatalog | src/data/food-data.ts:12-277 | the ids of the three lists, in order, are f1..f8, pd1, pd2, af1, af2, eu1, eu2, ff1, ff2, gl1, gl2, pz1, pz2, dr1, dr2, c1..c4 and tg1..tg4 |
| Catalog.CatalogIdsUnique | src/data/food-data.ts:12-277 | ids are unique across the three item lists together |
| Catalog.FoodItemCategoriesListed | src/data/food-data.ts:12-294 | every dish's category is one of the home categories |
| Catalog.CourseItemCategoriesListed | src/data/food-data.ts:205-303 | every grocery item's category is one of the grocery categories |
| Catalog.SpecialtiesHaveRegions | src/data/food-data.ts:240-277 | every Togolese specialty has category "togolese" and a region |
| Text.TrimShape | src/components/admin/CategoryManager.tsx:61 | `trim()` returns the slice of the string between its leading and trailing whitespace, with no whitespace at either end |
| Text.BlankIffAllSpace | src/components/admin/FoodItemManager.tsx:95 | `!s.trim()` holds exactly when every character is whitespace |
| Text.TrimIdempotent | src/components/admin/CategoryManager.tsx:61 | trimming twice is trimming once |
| Text.LowerIdempotent | src/pages/Courses.tsx:25 | lowering twice is lowering once |
| Text.DecimalValueOfNatToString | src/pages/Cart.tsx:90-93 | a number printed by a template literal reads back as that number |

## Left out

- Database calls, the realtime channel subscription and `removeChannel`, and the `loading` flags around them. The database's answer is a parameter, and the request that would be sent is returned.
- The `useLocalStorage` hook is not part of this model. `cartItems`, `favorites` and the first-visit flag are plain values that each handler replaces.
- `src/contexts/ThemeContext.tsx`: DOM class lists, `matchMedia` and storage.
- Toasts are modelled only as their text, where a contract mentions them. Their display, duration and variant are not modelled.
- `navigate` is returned as the target path. `window.open`, `encodeURIComponent` and the order-message URL are not modelled.
- Geolocation in the checkout form (`handleGetLocation`), because it is a browser API.
- Timers:
  - the banner's `setInterval`, modelled only as the step taken per tick;
  - the popup timer on the last added cart line;
  - the card's like animation.
- Keydown listeners and the notification panel's `isOpen` rendering switch.
- Floating point:
  - `parseFloat(price)` is modelled only as whether it reads a number (`ParsesAsNumber`), not as its value;
  - `toFixed(2)` and `price.toString()` are not modelled;
  - a digit string too long for a double is read exactly, where `parseInt` would round it.
- Prices.ParsePrice: reads the digits exactly. JavaScript numbers lose precision above 2^53, which the catalogue never reaches.
- `toLowerCase` is modelled for Basic Latin and Latin-1 letters only. There is no Unicode case mapping beyond Latin-1.
- IndexPage.AddToCart: `lastAddedToCart` is returned as a value. The popup it opens and the timer that clears it are not modelled.
- The order of realtime events delivered concurrently is not modelled: the code has no counters and no deduplication that such ordering could break.
- The settings page's password save button, which only raises a toast.
- Profile.ProfilePage.Submit: the browser's clean-up of an e-mail input's value (removing line breaks and surrounding ASCII whitespace) is not modelled, and the value is checked as typed.
- FoodItemManager.Manager.StartEdit: stores the row as given; the `price.toString()` applied to it is not modelled, because the form model already holds the price as text.
- The admin preview dialog, the admin tables and every other piece of markup.
- Presentation and routing only: `App.tsx`, `NavBar.tsx`, `SideMenu.tsx`, `Header.tsx`, `CategoryList.tsx`, `Logout.tsx`, `SplashScreen.tsx`.
