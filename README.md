# Object-oriented exercises: ledgers, accounts, builders and validators

This project is a Dafny model of the scripts of an object-oriented design
exercise set, with proofs about them. It models each script's core classes
and functions and states what they promise:

- `FoodDelivery` (`topic_5/question_2.py`): restaurants with a menu that maps
  each food item object to a quantity, customers with a cart, and a delivery
  service that looks restaurants up by name.
- `ShoppingCartSystem` (`topic_5/question_1.py`): products with a price and a
  stock quantity, a cart that maps each product object to a cart quantity,
  and a customer who checks the cart out.
- `QuantityMaps`: the dictionary updates that the three ledgers above share.
  These are the add (`+=` or insert), the remove (`-=` or `del`), and the sum
  of price times quantity. The sum is defined without any iteration order and
  is proved independent of it.
- `Library` (`topic_1/question_1.py`): a catalog of books, found by exact
  title (the first match wins), with borrowing and returning.
- `Banking` (`topic_1/question_4.py`): savings and checking accounts with
  guarded deposits and withdrawals.
- `Pricing` (`topic_1/question_2.py`): plain and discounted products, and the
  total price of a list of them.
- `DocumentBuilder` (`topic_2/builder_pattern.py`): PDF, HTML and plain-text
  document builders, and the generator that drives a builder.
- `Configuration` (`topic_2/singleton.py`): the singleton configuration
  manager over a two-level section and setting map.
- `StudentRecords` (`topic_3/coding_convention.py`): student records kept in
  a JSON list, with add and search.
- `EmailValidation` (`topic_4/question_1.py`): the email regular expression as
  a string predicate.
- `Wrappers`: the `Option` and `Result` types. A raised `ValueError` or a
  `None` result is modelled with these.

Objects whose fields the source updates in place are classes here:
`Restaurant`, `Customer`, `ShoppingCart`, `Product` (the stock quantity),
`Book` (its availability), `Account`, `Document`, `ConfigurationManager`
and the singleton's instance slot. Each method's `ensures` gives the new
state as a function of the old state. The properties are proved about those
functions. Loops of the source (`get_total_revenue`, `get_total_cart_price`,
`find_restaurant_by_name`, `get_book_details`, `search_student`,
`calculate_total_price`) are loops here, proved against those functions. A
family of subclasses that differ in how some methods behave is one class or
datatype with a kind tag, and a subclass's extra field (`overdraft_limit` of
`CheckingAccount`, `discount` of `DiscountedProduct`) is carried by the kind
tag's or the datatype's variant: `Checking(overdraftLimit)` and
`DiscountedProduct(price, discount)`. `AccountKind` covers the constructor's overdraft limit, `withdraw` and
`get_overdraft_limit`. `DocumentKind` covers `add_heading` and
`add_paragraph`. The two `Pricing.Product` variants cover `get_price`.

The model follows the code wherever its behaviour differs from what its
names, comments or tests suggest:

- The shopping-cart checkout in the module demo charges 280, not the
  50 + 2 * 30 = 110 that the prices alone would give. A cart line is worth `price * product.quantity * cart quantity`, because
  `get_total_price` multiplies in the product's own stock quantity
  (`topic_5/question_1.py:19-21, 98`).
- Adding 0 to a menu or shopping cart creates an entry holding 0. The remove
  functions then delete it. Zero-quantity entries do exist.
- The food-delivery customer cart rejects a quantity of 0 as well
  (`quantity > 0`). Every other add accepts 0.
- The test `test_valid_emails` expects `aavash.bhattarai@gmail.com`,
  `ram_bahadur@yahoo.com` and `bipin.karki@outlook.com` to be accepted. The
  regular expression needs a domain label before `.gmail` and the others, so
  it rejects all three. The model follows the regular expression, and
  `EmailValidation.BareGmailExampleRejected`,
  `EmailValidation.BareYahooExampleRejected` and
  `EmailValidation.BareOutlookExampleRejected` prove the rejection.
- Python's `$` also matches just before one final newline, so an accepted
  address followed by `"\n"` is accepted too.
- The library demo at `topic_1/question_1.py:158` looks up a title that is not
  in the catalog. That call raises, so the rest of the demo never runs.

## Model

| member | source | states |
|---|---|---|
| `QuantityMaps.SumValuesRemove` | topic_5/question_2.py:53-58 | Any entry can be taken out of the sum first, so the sum of a dictionary's values does not depend on the order it is iterated in |
| `QuantityMaps.SumValuesUpdate` | topic_5/question_1.py:94-99 | Overwriting one entry changes the sum by the new value minus the old one, where an absent entry counts as 0 |
| `QuantityMaps.SumValuesNonNegative` | topic_5/question_1.py:94-99 | A dictionary with no negative value has a non-negative sum |
| `QuantityMaps.TotalIncremented` | topic_5/question_2.py:30-36 | Adding `q` to an item's entry, or inserting it with `q`, raises the price-times-quantity total by exactly the item's price times `q` |
| `QuantityMaps.TotalRemoved` | topic_5/question_2.py:40-51 | A remove that goes ahead lowers the total by the price times what was actually taken: the whole entry when it held at most `q`, else `q`. An absent item or a negative amount leaves the total unchanged |
| `QuantityMaps.TotalNonNegative` | topic_5/question_2.py:53-58 | The total of an empty dictionary is 0, and a dictionary with non-negative quantities and prices has a non-negative total |
| `QuantityMaps.IncrementedNonNegative` | topic_5/question_2.py:30-36 | A non-negative add keeps every quantity non-negative. The item then holds its old quantity (0 when absent) plus `q`, and no other entry changes |
| `QuantityMaps.RemovedNonNegative` | topic_5/question_2.py:40-51 | A remove never makes a quantity negative or adds a key. The removed item is either gone, or holds exactly the amount less and is still positive, unless nothing changed; no other entry changes |
| `QuantityMaps.AddThenRemove` | topic_5/question_2.py:30-51 | Adding `q` and then removing `q` gives back the dictionary, except that an entry that held 0 is deleted. The total is always restored |
| `FoodDelivery.FoodItem.constructor` | topic_5/question_2.py:9-11 | A food item holds the given name and price |
| `FoodDelivery.Restaurant.constructor` | topic_5/question_2.py:26-28 | A new restaurant has an empty menu, and its revenue is 0 |
| `FoodDelivery.Restaurant.AddToMenu` | topic_5/question_2.py:30-38 | A non-negative quantity is added to the item's entry, which is created, with 0 too, when absent. Revenue rises by price times quantity. A negative quantity changes nothing. Non-negative quantities stay non-negative |
| `FoodDelivery.Restaurant.RemoveFromMenu` | topic_5/question_2.py:40-51 | Absence is checked first, then the sign. The entry is deleted when it holds at most the quantity and decremented otherwise. Revenue falls by price times what was taken. Non-negative quantities stay non-negative |
| `FoodDelivery.Restaurant.GetTotalRevenue` | topic_5/question_2.py:53-58 | The accumulator loop returns the sum of price times quantity over the menu, whatever order it visits the items in |
| `FoodDelivery.Customer.constructor` | topic_5/question_2.py:73-76 | A new customer has the given name and address and an empty cart |
| `FoodDelivery.Customer.AddToCart` | topic_5/question_2.py:78-86 | Only a strictly positive quantity is added. A quantity of 0 or less leaves the cart unchanged, so no new entry holds 0 |
| `FoodDelivery.Customer.RemoveFromCart` | topic_5/question_2.py:88-99 | The same rules as removing from a menu: absent item, then sign, then delete or decrement. Non-negative quantities stay non-negative |
| `FoodDelivery.FirstNamed` | topic_5/question_2.py:129-132 | The index of the first restaurant with exactly that name, or the list length when none has it. Every earlier restaurant has a different name |
| `FoodDelivery.DeliveryService.constructor` | topic_5/question_2.py:112-113 | A new service lists no restaurants |
| `FoodDelivery.DeliveryService.AddRestaurant` | topic_5/question_2.py:115-117 | The restaurant is appended at the end, and the earlier ones are unchanged |
| `FoodDelivery.DeliveryService.FindRestaurantByName` | topic_5/question_2.py:119-132 | The loop returns the first restaurant, in insertion order, whose name equals the argument, and null when there is none |
| `FoodDelivery.FirstNamedAppend` | topic_5/question_2.py:115-132 | Adding a restaurant never changes which restaurant an existing name finds. A name not yet present finds the new restaurant exactly when that restaurant carries it |
| `FoodDelivery.Demo` | topic_5/question_2.py:135-161 | The demo's revenues are 80 for Tasty Bites and 216 for Spice Delight |
| `FoodDelivery.TastyBites` | topic_5/question_2.py:142-160 | Removing 6 pizzas from an entry of 5 deletes the entry, so 10 burgers at 8 make 80 |
| `FoodDelivery.SpiceDelight` | topic_5/question_2.py:145-161 | Removing a burger the menu never had changes nothing, so 8 pizzas at 12 and 12 pastas at 10 make 216 |
| `FoodDelivery.ServiceDemo` | topic_5/question_2.py:153-155 | A lookup of "Spice Delight" finds that restaurant. A name differing only in case finds none |
| `FoodDelivery.CartDemo` | topic_5/question_2.py:148-151 | The -2 add is rejected, so the demo cart holds two entries |
| `ShoppingCartSystem.Product.constructor` | topic_5/question_1.py:14-17 | A product holds the given name, price and quantity |
| `ShoppingCartSystem.Product.UpdateQuantity` | topic_5/question_1.py:23-36 | A non-negative quantity replaces the stored one, and a negative one is rejected, so a non-negative quantity stays non-negative |
| `ShoppingCartSystem.ShoppingCart.constructor` | topic_5/question_1.py:50-51 | A new cart is empty |
| `ShoppingCartSystem.ShoppingCart.AddProduct` | topic_5/question_1.py:53-70 | A non-negative quantity is added, or inserted even when 0. The cart total rises by the product's total price times that quantity. A negative quantity changes nothing |
| `ShoppingCartSystem.ShoppingCart.RemoveProduct` | topic_5/question_1.py:72-92 | Absence is checked first, then the sign. Delete or decrement, with the cart total lowered by the product's total price times what was taken |
| `ShoppingCartSystem.ShoppingCart.GetTotalCartPrice` | topic_5/question_1.py:94-99 | The loop returns the sum over the cart of price times the product's stock quantity times the cart quantity, in any order |
| `ShoppingCartSystem.Customer.constructor` | topic_5/question_1.py:115-118 | A new customer owns a fresh, empty cart |
| `ShoppingCartSystem.Customer.AddToCart` | topic_5/question_1.py:120-122 | Delegates to the cart's add, with the same new contents and total |
| `ShoppingCartSystem.Customer.RemoveFromCart` | topic_5/question_1.py:124-126 | Delegates to the cart's remove, with the same new contents |
| `ShoppingCartSystem.Customer.Checkout` | topic_5/question_1.py:128-135 | Computes the cart total. When the total is positive the cart is emptied, otherwise the cart is left as it is |
| `ShoppingCartSystem.CheckoutTwice` | topic_5/question_1.py:128-135 | A second checkout right after a successful one charges 0 and leaves the cart empty. After an unsuccessful one it changes nothing |
| `ShoppingCartSystem.Demo` | topic_5/question_1.py:137-147 | The demo checks out at 280. The later -1 add and the remove of the now-absent mouse leave the cart empty |
| `Library.Book.constructor` | topic_1/question_1.py:2-26 | A book holds the given title, author, ISBN, genre and availability, which is true unless given |
| `Library.FirstTitled` | topic_1/question_1.py:79-82 | The index of the first book with exactly that title, or the list length when none has it. Every earlier book has a different title |
| `Library.FirstTitledAppend` | topic_1/question_1.py:45-82 | Adding a book never changes which book an existing title finds. An unknown title finds the new book exactly when it carries that title |
| `Library.LibraryCatalog.constructor` | topic_1/question_1.py:33-43 | A new catalog has no books |
| `Library.LibraryCatalog.AddBook` | topic_1/question_1.py:45-57 | The book is appended at the end, with no duplicate check |
| `Library.LibraryCatalog.GetBookDetails` | topic_1/question_1.py:59-82 | The loop returns the first book with that title, and NotFound (the ValueError) when there is none |
| `Library.LibraryCatalog.GetAllBooks` | topic_1/question_1.py:84-101 | Returns the catalog's books in insertion order |
| `Library.LibraryCatalog.BorrowBook` | topic_1/question_1.py:103-128 | On the first book with that title: fails with NotFound, or with AlreadyBorrowed when it is out, and then no availability changes. Otherwise it clears that book's availability and leaves every other book as it was |
| `Library.LibraryCatalog.ReturnBook` | topic_1/question_1.py:130-146 | On the first book with that title: fails with NotFound, or with AlreadyAvailable when it is in, and then no availability changes. Otherwise it sets that book's availability and leaves every other book as it was |
| `Library.BorrowThenReturn` | topic_1/question_1.py:124-145 | A successful borrow followed by a return restores every book's availability. An unknown title fails both times with nothing changed |
| `Library.BorrowTwice` | topic_1/question_1.py:124-127 | After a successful borrow, a second borrow of the same title fails with AlreadyBorrowed, even if a later duplicate title is available |
| `Library.Demo` | topic_1/question_1.py:149-158 | The demo's lookup of "The Great Gatsby" fails with NotFound |
| `Banking.Deposited` | topic_1/question_4.py:61-73 | A deposit goes ahead exactly when the amount is non-negative, and then raises the balance by the amount |
| `Banking.Withdrawn` | topic_1/question_4.py:75-141 | A withdrawal goes ahead exactly when 0 <= amount <= balance + overdraft limit (the limit is 0 for savings), and then lowers the balance by the amount |
| `Banking.RunKeepsLimit` | topic_1/question_4.py:85-141 | A balance starting at or above minus the overdraft limit stays there under any sequence of deposits and withdrawals. In particular a savings balance never goes negative |
| `Banking.DepositThenWithdraw` | topic_1/question_4.py:61-141 | Withdrawing what was just deposited succeeds and restores the balance, for both account kinds |
| `Banking.Account.SavingsAccount` | topic_1/question_4.py:51-59 | A savings account holds the given balance, and its overdraft limit is 0 |
| `Banking.Account.CheckingAccount` | topic_1/question_4.py:101-111 | A checking account holds the given balance, and its overdraft limit is the one given |
| `Banking.Account.Deposit` | topic_1/question_4.py:61-73 | The balance becomes the deposited balance, or stays as it was when the deposit is refused |
| `Banking.Account.Withdraw` | topic_1/question_4.py:75-141 | The balance becomes the withdrawn balance, or stays as it was when the withdrawal is refused. It never goes below minus the overdraft limit if it was not already below |
| `Banking.Demo` | topic_1/question_4.py:153-163 | The demo's savings balance ends at 1300, the checking balance at 600, and the checking overdraft limit is 500 |
| `Pricing.SumPricesAppend` | topic_1/question_2.py:51-64 | The total of a concatenated list is the sum of the two totals |
| `Pricing.CalculateTotalPrice` | topic_1/question_2.py:51-64 | The loop returns the sum of each element's own price, with each subclass's override applied, and 0 for an empty list |
| `Pricing.DiscountBounds` | topic_1/question_2.py:15-48 | A discount of 0 gives the plain price. A discount between 0 and 1 on a non-negative price gives a price between 0 and the plain one |
| `Pricing.Demo` | topic_1/question_2.py:67-69 | 100 + 50 + 75 at 10% off totals 217.5 |
| `DocumentBuilder.PdfMatchesHtml` | topic_2/builder_pattern.py:24-41 | The PDF and HTML builders produce the same content for every sequence of calls |
| `DocumentBuilder.RenderSnoc` | topic_2/builder_pattern.py:27-51 | Each call appends its own markup to the content of the earlier calls |
| `DocumentBuilder.RenderGrows` | topic_2/builder_pattern.py:27-51 | Calls only ever append: the content so far is a prefix of the content after any further calls |
| `DocumentBuilder.RenderFour` | topic_2/builder_pattern.py:27-51 | Four calls on a new document give their four pieces of markup, in call order |
| `DocumentBuilder.PlainTextLength` | topic_2/builder_pattern.py:44-51 | The length of a plain-text document is the total length of the texts added plus one newline per call |
| `DocumentBuilder.Document.constructor` | topic_2/builder_pattern.py:7-8 | A new document's content is empty |
| `DocumentBuilder.Document.AddHeading` | topic_2/builder_pattern.py:27-48 | Appends `<h1>heading</h1>` and a newline for PDF and HTML, or the heading and a newline for plain text. The content stays the rendering of all calls so far |
| `DocumentBuilder.Document.AddParagraph` | topic_2/builder_pattern.py:30-51 | Appends `<p>paragraph</p>` and a newline for PDF and HTML, or the paragraph and a newline for plain text. The content stays the rendering of all calls so far |
| `DocumentBuilder.DocumentGenerator.constructor` | topic_2/builder_pattern.py:57-58 | The generator keeps the builder it was given |
| `DocumentBuilder.DocumentGenerator.GenerateDocument` | topic_2/builder_pattern.py:60-66 | Makes the four sample calls in order on the builder and returns that same builder |
| `DocumentBuilder.SampleRendered` | topic_2/builder_pattern.py:60-66 | The four sample calls on a new PDF or HTML builder give two headings and two paragraphs in tags, in call order |
| `DocumentBuilder.SampleTextRendered` | topic_2/builder_pattern.py:60-66 | The four sample calls on a new plain-text builder give the four texts, each followed by a newline, in call order |
| `DocumentBuilder.Generated` | topic_2/builder_pattern.py:20-21 | A generator run on a new builder yields a document that prints as its class name, a colon and newline, then the rendering of the four sample calls |
| `DocumentBuilder.Demo` | topic_2/builder_pattern.py:69-88 | The PDF and HTML documents print as their class name line followed by the sample markup; the plain-text document as its class name line followed by the four texts, one per line |
| `Configuration.Loaded` | topic_2/singleton.py:20-31 | A missing or undecodable file leaves an empty configuration. Otherwise the decoded file is used |
| `Configuration.Lookup` | topic_2/singleton.py:33-44 | A setting is found exactly when both the section and the setting name are present, and then it is the stored value. Otherwise the result is None |
| `Configuration.LookupUpdated` | topic_2/singleton.py:46-60 | After a set, a lookup of that pair gives the new value and every other pair reads as before. The section exists afterwards, and no other section is added |
| `Configuration.ConfigFile.constructor` | topic_2/singleton.py:27-31 | The file holds the given decoded contents, or None when it is missing or undecodable |
| `Configuration.ConfigurationManager.constructor` | topic_2/singleton.py:3-5 | A new manager keeps a reference to the given file and holds no settings yet |
| `Configuration.ConfigurationManager.LoadConfig` | topic_2/singleton.py:20-31 | The manager's settings become what the file loads to |
| `Configuration.ConfigurationManager.SetSetting` | topic_2/singleton.py:46-62 | Stores the value, creating the section if needed, and writes the whole configuration back to the file. A following get returns the value |
| `Configuration.ManagerSlot.constructor` | topic_2/singleton.py:4 | No instance exists before the first call |
| `Configuration.ManagerSlot.GetInstance` | topic_2/singleton.py:7-18 | The first call creates a manager and loads the file. Every later call returns that same manager without loading again |
| `Configuration.Demo` | topic_2/singleton.py:65-77 | Both handles are the same manager. The first get reads the file's value, and a value set through one handle is read back through the other |
| `StudentRecords.AddStudentRecord` | topic_3/coding_convention.py:4-27 | The list written back is the loaded list (empty for a missing file) with exactly one new record appended at the end |
| `StudentRecords.FirstMatch` | topic_3/coding_convention.py:48-50 | The index of the first record whose field equals the value, or the list length when none does. Every earlier record differs |
| `StudentRecords.SearchStudent` | topic_3/coding_convention.py:30-52 | Returns the age and grade of the first record, in stored order, whose field equals the value. Returns None when nothing matches or the file is missing |
| `StudentRecords.FirstMatchAppend` | topic_3/coding_convention.py:24-50 | Appending never changes a search that already matched, so with a duplicate id the earlier record wins. Otherwise the search finds the new record exactly when it matches |
| `StudentRecords.Demo` | topic_3/coding_convention.py:55-61 | Starting from no file, after two adds, a search for student_id 12345 gives None |
| `EmailValidation.MatchesWholeIffSplit` | topic_4/question_1.py:15 | The anchored pattern matches a whole string exactly when the string is local part, '@', domain, '.', provider and ".com" |
| `EmailValidation.ValidateEmailMatchesRegex` | topic_4/question_1.py:4-21 | The validator accepts exactly the strings L@D.P.com, optionally followed by one final newline. L is non-empty over `[a-zA-Z0-9._%+-]`, D is non-empty over `[a-zA-Z0-9.-]`, and P is yahoo, gmail or outlook |
| `EmailValidation.AcceptedHasOneAt` | topic_4/question_1.py:15 | Every accepted string contains exactly one '@' |
| `EmailValidation.MatchesWholeAtSingleAt` | topic_4/question_1.py:15 | When a string has a single '@', the match is decided by the parts before and after it |
| `EmailValidation.RejectedWithoutAt` | topic_4/question_1.py:15-21 | A string without '@' is rejected, with or without a final newline |
| `EmailValidation.RejectedAtSingleAt` | topic_4/question_1.py:15-21 | A string with a single '@', no final newline and none of the three provider suffixes after the '@' is rejected |
| `EmailValidation.RejectedByShape` | topic_4/question_1.py:15-21 | The same, when the text after the '@' is too short for a provider suffix or lacks the dot and first provider letter where one would start |
| `EmailValidation.FinalNewlineAccepted` | topic_4/question_1.py:15-21 | A string the pattern matches whole is still accepted with one newline appended |
| `EmailValidation.NoAtExampleRejected` | topic_4/question_1.py:33 | "invalid.email.com" is rejected |
| `EmailValidation.UnknownProviderExampleRejected` | topic_4/question_1.py:34 | "user@yopmail.com" is rejected |
| `EmailValidation.MalformedEndingExamplesRejected` | topic_4/question_1.py:35-36 | A trailing space ("test@gmail.com ") and a missing ".com" ("john.doe@gmail") are rejected |
| `EmailValidation.BareGmailExampleRejected` | topic_4/question_1.py:27 | "aavash.bhattarai@gmail.com", which the file's own test expects to pass, is rejected: there is no domain label before the provider |
| `EmailValidation.BareYahooExampleRejected` | topic_4/question_1.py:28 | "ram_bahadur@yahoo.com", which the file's own test expects to pass, is rejected for the same reason |
| `EmailValidation.BareOutlookExampleRejected` | topic_4/question_1.py:29 | "bipin.karki@outlook.com", which the file's own test expects to pass, is rejected for the same reason |
| `EmailValidation.LabelledProviderAccepted` | topic_4/question_1.py:15-21 | "bipin@mail.gmail.com" is accepted, and so is the same address followed by one newline |
| `EmailValidation.CapitalisedProviderRejected` | topic_4/question_1.py:15 | Provider matching is case-sensitive: "bipin@mail.Gmail.com" is rejected |

## Left out

- File and JSON I/O (`open`, `json.load`, `json.dump`) is not modelled. A file's contents are passed in as an `Option` value, and what is written is returned, or kept as the new state of a `ConfigFile`. For `ConfigFile`, `None` stands for a missing or undecodable file (both caught by `load_config`). For the student-records file, `None` stands only for a missing file.
- `StudentRecords.AddStudentRecord` and `StudentRecords.SearchStudent`: a records file that exists but is not valid JSON makes the source raise `json.JSONDecodeError` (only `FileNotFoundError` is caught, `topic_3/coding_convention.py:20` and `:45`), and nothing is written. The model has no such file state, so this error path is not modelled.
- JSON content that is not a list of records, or not a map of maps, is not modelled, and neither is a malformed record raising `KeyError`.
- Printed messages and `print` calls are not modelled. A rejected call that only prints is modelled as "state unchanged", and a raised `ValueError` as an `Err` outcome.
- Floating-point prices, balances and discounts are exact integers or reals here, so IEEE rounding is not modelled.
- Dictionary iteration order is not modelled. The sums are defined without an order and proved independent of it.
- `Library.LibraryCatalog.GetAllBooks`: returns the sequence of books as a value. That the source hands out its own list, which a caller could then mutate, is not modelled.
- `Book.__str__` formatting is not modelled.
- `EmailValidation.ValidateEmail` and `Pricing.GetPrice` carry no contract of their own: `EmailValidation.ValidateEmailMatchesRegex` states what `validate_email` accepts, and `Pricing.DiscountBounds` relates the two `get_price` overrides.
- `DocumentBuilder.Document.ToString`, `Banking.Account.GetBalance`, `Banking.Account.GetOverdraftLimit`, `ShoppingCartSystem.Product.GetTotalPrice` and `Configuration.ConfigurationManager.GetSetting` are plain accessors with no contract of their own. Their values are used in the contracts of the members that call them.
- `Configuration.ConfigurationManager.constructor`: starts with an empty map, where the source's class attribute starts as None. Through `get_instance`, which loads the file immediately after construction, the difference cannot be observed. A manager constructed directly is another matter: in the source its `get_setting` raises `AttributeError` and its `set_setting` raises `TypeError` (`topic_2/singleton.py:44` and `:58`, both working on `None`). The model's manager instead reads as empty and stores the value, so this error path is not captured.
- The abstract base classes (`BankAccount`, `Document`) and the subclass dispatch are not modelled as classes. Each family is one class or datatype with a kind tag.
- `topic_1/question_5.py` (payment processors that only print), `topic_2/factory_pattern.py` (loggers doing file and console I/O) and `topic_4/question_2.py` (floating-point statistics computed by a library) are not part of this model.
- The module-level demos run as one script in the source. Here each demo is a method, and some are split into smaller methods (`FoodDelivery.TastyBites`, `FoodDelivery.SpiceDelight`, `FoodDelivery.ServiceDemo`, `FoodDelivery.CartDemo`). The student-records demo starts with no records file. The configuration demo takes the file's contents as a parameter. The document-builder demo returns its three printed documents as three strings, without the blank lines printed between them.
- The library demo's lines after line 158 are not modelled, because the lookup at line 158 raises and ends the script.
- The unit-test harness of `topic_4/question_1.py` is not modelled. Its cases appear as lemmas about `ValidateEmail`.
