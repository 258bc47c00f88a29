# ticketq-fe: a Dafny model of the ticket front end

ticketq-fe is a Next.js front end for a concert ticket manager. This project models its core in Dafny:

- the mock user directory, with login by exact email and password and with registration;
- the seeded ticket catalog and the lookup of a ticket by id;
- the ticket browsing page, with its type filter and per-type counters;
- the "My Tickets" page, with its usage filter, used/unused statistics and usage toggle;
- the validation and submit logic of the login form and of the "Purchase New Ticket" form;
- the navigation bar's rule for which link is highlighted.

Modules follow the source files:

| module | file | models |
|---|---|---|
| `Wrappers` | `wrappers.dfy` | `Option`, used for JavaScript's `null`/`undefined` results and for optional fields |
| `Text` | `text.dfy` | the JavaScript string primitives the pages use: the `\s` whitespace class, `trim`, `length` in UTF-16 code units, `Number#toString` for naturals below 10^21 (from there on JavaScript switches to exponent notation), and the NaN test of `parseFloat` |
| `Seqs` | `seqs.dfy` | `Array.prototype.filter`, with the selection, partition and counting facts the pages rely on |
| `Users` | `users.dfy` | `src/app/data/users.ts` |
| `Tickets` | `tickets.dfy` | `src/app/data/tickets.ts` |
| `TicketsPage` | `tickets_page.dfy` | `src/app/tickets/page.tsx` |
| `TicketList` | `ticket_list.dfy` | `src/app/tickets/list/page.tsx` |
| `LoginPage` | `login_page.dfy` | `src/app/login/page.tsx` |
| `CreateTicketPage` | `create_page.dfy` | `src/app/tickets/create/page.tsx` |
| `Navbar` | `navbar.dfy` | `isActive` in `src/app/components/Navbar.tsx` |

State that the source updates in place becomes a class:

- the module-level `mockUsers` array becomes `Users.UserDirectory`;
- the list page's `useState` hooks become `TicketList.TicketListPage`;
- the login form's hooks become `LoginPage.LoginForm`;
- the purchase form's hooks become `CreateTicketPage.CreateTicketForm`.

Each event handler is a method of its class. Computations over values are functions, and the properties the pages depend on are lemmas about those functions.

Modelling choices that differ from the source's types:

- A ticket's price is kept in integer cents, e.g. 299.99 becomes 29999.
- Dates are strings. The clock reading that `registerUser` stamps on a new user is the method's `now` parameter.
- The session's `login` call is a function parameter of `LoginForm.HandleSubmit`. Its answer is accepted, rejected, or threw.
- React's `useEffect` on `[tickets]` is the separate method `TicketListPage.RecomputeStats`. The statistics are therefore stale between a toggle and the effect, as they are in the page.

## Model

| member | source | states |
|---|---|---|
| Text.LeadingSpace | src/app/tickets/create/page.tsx:45-75 | the index returned is the first non-whitespace position at or after the start, or the length; everything before it is whitespace |
| Text.TrimStart | src/app/tickets/create/page.tsx:45-75 | the result is a suffix of the input; everything dropped is whitespace; the result does not start with whitespace |
| Text.TrimEnd | src/app/tickets/create/page.tsx:45-75 | the result is a prefix of the input; everything dropped is whitespace; the result does not end with whitespace |
| Text.Trim | src/app/tickets/create/page.tsx:45-75 | `trim()` is empty exactly when the text is all whitespace; a non-empty result has no whitespace at either end |
| Text.TrimSlice | src/app/tickets/create/page.tsx:45-75 | trimming the start and then the end gives an empty text exactly when the input was all whitespace |
| Text.Utf16Length | src/app/login/page.tsx:62 | `length` is the number of characters plus the number of characters at or above U+10000; it equals the number of characters when there are none of those, lies between one and two units per character, and is zero only for the empty text |
| Text.DecimalString | src/app/data/users.ts:61 | `toString()` of a natural below 10^21 is a non-empty run of decimal digits with no leading zero |
| Text.DecimalRoundTrip | src/app/data/users.ts:61 | reading back the printed digits gives the number again |
| Text.DecimalStringInjective | src/app/data/users.ts:61 | distinct numbers print as distinct ids |
| Text.NoDigitIsNaN | src/app/tickets/create/page.tsx:61-65 | a price with no digit and no `I` is "not a valid number" |
| Text.NoNumberStart | src/app/tickets/create/page.tsx:61-65 | without a digit or an `I`, none of the three ways a `parseFloat` number may start is present |
| Text.LeadingDigitParses | src/app/tickets/create/page.tsx:61-65 | a price whose first non-blank character is a digit is a valid number |
| Text.ParsesAsNumber | src/app/tickets/create/page.tsx:63 | (definition) `parseFloat` is not NaN exactly when, after leading whitespace and at most one sign, the text starts with a digit, with `.` and a digit, or with `Infinity` |
| Seqs.Filter | src/app/tickets/page.tsx:14 | `filter` keeps only matching elements and never grows the list |
| Seqs.FilterKeepsMatch | src/app/tickets/page.tsx:14 | no matching element is dropped |
| Seqs.Selected | src/app/tickets/page.tsx:14 | the matching positions, strictly increasing, are exactly the positions whose element matches |
| Seqs.FilterIsSelection | src/app/tickets/page.tsx:14 | `filter` returns the matching elements in their original order |
| Seqs.FilterSuffixIsSelection | src/app/tickets/page.tsx:14 | the same, for the list from any position on |
| Seqs.FilterPartition | src/app/tickets/list/page.tsx:28-29 | a predicate and its negation split the list: as multisets, by length, and with no element in both |
| Seqs.FilterSplitsMultiset | src/app/tickets/list/page.tsx:28-29 | a predicate and its negation split the list's multiset |
| Seqs.FilterSplitsLength | src/app/tickets/list/page.tsx:28-29 | the two counts add up to the length |
| Seqs.FilterPartition3 | src/app/tickets/page.tsx:17-19 | three exclusive, exhaustive predicates split the length into three counts |
| Users.WithoutPassword | src/app/data/users.ts:47 | (definition) the public record keeps id, name, email, role, avatar and creation date and drops only the password, as the destructuring at lines 47 and 72 does |
| Users.FirstMatch | src/app/data/users.ts:44 | `find` stops at the first record with this email and password, and finds none only if no record has both |
| Users.Authenticate | src/app/data/users.ts:43-52 | the user is returned, without the password, exactly when a record matches both fields; it is the first such record |
| Users.AuthenticateOwnCredentials | src/app/data/users.ts:43-52 | with distinct emails, every record's own credentials log in as that record |
| Users.EmailTaken | src/app/data/users.ts:55 | (definition) some record already carries exactly this email |
| Users.IdsAreUnique | src/app/data/users.ts:61 | ids assigned as `String(position + 1)` are pairwise distinct |
| Users.UserDirectory.constructor | src/app/data/users.ts:13-40 | the directory starts with the three seed users, with distinct emails and ids "1" to "3" |
| Users.UserDirectory.Register | src/app/data/users.ts:54-74 | a taken email returns null and changes nothing; otherwise exactly one record is appended with the next id, role `user`, the given fields and `now`, the result is that record without its password, and the new credentials log in; emails stay distinct and ids stay positional |
| Users.SeedAdminLogin | src/app/data/users.ts:13-22 | the seeded admin logs in with `password123` and is refused with another password |
| Users.SeedEmailsAreDistinct | src/app/data/users.ts:13-40 | the three seed emails are pairwise distinct |
| Tickets.FindById | src/app/data/tickets.ts:218-220 | the lookup returns the first ticket with this id, and returns nothing only if no ticket has it |
| Tickets.GetTicketById | src/app/data/tickets.ts:218-220 | the result is a catalog ticket with the asked id, and nothing is returned exactly when no catalog ticket has that id |
| Tickets.FindByIdUnique | src/app/data/tickets.ts:218-220 | with distinct ids, looking up a ticket's id returns that ticket |
| Tickets.PositionalIdsDistinct | src/app/data/tickets.ts:24-216 | ids equal to position + 1 are distinct |
| Tickets.CatalogIdsArePositions | src/app/data/tickets.ts:24-216 | the catalog holds ten tickets with ids 1 to 10 in order |
| Tickets.LookupInCatalog | src/app/data/tickets.ts:218-220 | `getTicketById(k)` for k in 1..10 returns the k-th ticket |
| Tickets.LookupOutsideCatalog | src/app/data/tickets.ts:218-220 | every other id gives `undefined` |
| Tickets.CatalogUsedTickets | src/app/data/tickets.ts:24-216 | exactly tickets 3 and 9 start as used |
| Tickets.CatalogTypes | src/app/data/tickets.ts:24-216 | the catalog's types, in order, cycle VIP, Premium, Standard and end with VIP |
| Tickets.CatalogUsage | src/app/data/tickets.ts:24-216 | the catalog's `isUsed` flags, in order |
| Tickets.CatalogNotesNumbered | src/app/data/tickets.ts:40-214 | in every seeded ticket the note ids run 1, 2, ... with no gap (the notes at lines 40-47, 81-88 and 190-197, the other lists empty) |
| TicketsPage.Shown | src/app/tickets/page.tsx:12-14 | `All` shows the catalog itself; a type shows only tickets of that type and misses none of them |
| TicketsPage.ShownIsOrderedSelection | src/app/tickets/page.tsx:12-14 | the filtered list is the catalog's tickets of that type, in catalog order |
| TicketsPage.CountersOf | src/app/tickets/page.tsx:17-19 | the total is the catalog length; each counter is the size of the list that type's filter shows; the three counters add up to the total |
| TicketsPage.TypeCountIsOccurrences | src/app/tickets/page.tsx:17-19 | a type's counter is the number of occurrences of that type |
| TicketsPage.CatalogCounters | src/app/tickets/page.tsx:17-19 | the seeded page shows 10 available, 4 VIP, 3 Premium and 3 Standard |
| TicketsPage.CountersFromTypes | src/app/tickets/page.tsx:17-19 | any list whose types run as the seed's gets the counters 10, 4, 3, 3 |
| TicketsPage.SeedTypeOccurrences | src/app/data/tickets.ts:24-216 | the seed's type sequence has 4 VIP, 3 Premium and 3 Standard entries |
| TicketList.ShownByUsage | src/app/tickets/list/page.tsx:38-42 | `All` shows the list itself; `Used` and `Unused` show only tickets of that kind |
| TicketList.UsageViewsPartition | src/app/tickets/list/page.tsx:38-42 | the `Used` and `Unused` views split the list: together they hold each ticket as often as the list does, no ticket is in both, and each misses none of its kind |
| TicketList.UsageViewIsOrderedSelection | src/app/tickets/list/page.tsx:38-42 | each view lists its tickets in list order |
| TicketList.TicketListPage.FilteredTickets | src/app/tickets/list/page.tsx:38-42 | (definition) the rendered list is the view of the current list selected by the current filter |
| TicketList.StatsOf | src/app/tickets/list/page.tsx:27-36 | the total is the list length, used and unused are the sizes of the two views, and used + unused = total |
| TicketList.UsedCountIsOccurrences | src/app/tickets/list/page.tsx:28 | the used count is the number of `true` flags |
| TicketList.Toggle | src/app/tickets/list/page.tsx:44-50 | the list keeps its length; exactly the tickets with this id have `isUsed` negated; every other field is unchanged |
| TicketList.ToggleTwice | src/app/tickets/list/page.tsx:44-50 | toggling the same id twice restores the list |
| TicketList.ToggleAbsent | src/app/tickets/list/page.tsx:44-50 | toggling an unknown id changes nothing |
| TicketList.ToggleMovesOneTicket | src/app/tickets/list/page.tsx:27-50 | with distinct ids, one toggle moves exactly one ticket between used and unused and keeps the total |
| TicketList.ToggleUsedCount | src/app/tickets/list/page.tsx:27-50 | with distinct ids, one toggle changes the used count by exactly one, in the direction of the flip |
| TicketList.TicketListPage.constructor | src/app/tickets/list/page.tsx:13-19 | the page starts with the catalog, filter `All` and all-zero statistics |
| TicketList.TicketListPage.RecomputeStats | src/app/tickets/list/page.tsx:27-36 | the effect stores the statistics of the current list and changes nothing else |
| TicketList.TicketListPage.SetFilterUsage | src/app/tickets/list/page.tsx:89-101 | a filter button sets `filterUsage` to its value; the list and the statistics are unchanged |
| TicketList.TicketListPage.ToggleTicketUsage | src/app/tickets/list/page.tsx:44-50 | the list becomes its toggled copy; the filter and the statistics are untouched until the effect runs |
| TicketList.CatalogUsageStats | src/app/tickets/list/page.tsx:27-36 | once the effect has run on the seeded list, the statistics are 10 total, 2 used, 8 unused |
| TicketList.StatsFromUsage | src/app/tickets/list/page.tsx:27-36 | any list whose usage flags run as the seed's gets the statistics 10, 2, 8 |
| TicketList.SeedUsageOccurrences | src/app/data/tickets.ts:24-216 | the seed's usage flags hold two `true` |
| LoginPage.LooksLikeEmail | src/app/login/page.tsx:54 | (definition) some `@` has a non-whitespace character before it, and after it a non-empty whitespace-free run, a `.` and a non-whitespace character |
| LoginPage.LooksLikeEmailIsPattern | src/app/login/page.tsx:54 | the shortened test accepts exactly the strings that `\S+@\S+\.\S+` matches somewhere |
| LoginPage.EmailError | src/app/login/page.tsx:51-57 | "Email is required" exactly for an empty email, "Email is invalid" exactly for a non-empty one the pattern misses, and no message exactly when the pattern matches |
| LoginPage.PasswordError | src/app/login/page.tsx:59-65 | "Password is required" exactly for an empty password, the length message exactly for 1 to 5 UTF-16 units, and no message from 6 units on |
| LoginPage.LoginForm.constructor | src/app/login/page.tsx:14-23 | the form starts empty with no messages |
| LoginPage.LoginForm.HandleChange | src/app/login/page.tsx:27-41 | sets the edited field and clears only that field's message; the general message stays |
| LoginPage.LoginForm.ValidateForm | src/app/login/page.tsx:43-69 | all three messages are replaced and `general` is cleared; the result holds exactly when the email matches the pattern and the password has at least 6 units |
| LoginPage.LoginForm.HandleSubmit | src/app/login/page.tsx:71-93 | `login` is called exactly when validation passes; acceptance redirects; a refusal or an exception sets the matching general message and does not redirect |
| LoginPage.GeneralMessage | src/app/login/page.tsx:82-91 | the general message is empty exactly after an accepted login; a refusal gives "Invalid email or password" and an exception "An error occurred. Please try again." |
| LoginPage.EmptyFormReportsBoth | src/app/login/page.tsx:51-65 | an empty form reports both messages in the same pass |
| LoginPage.SeedCredentialsPass | src/app/login/page.tsx:51-65 | the seeded admin's email and password pass validation |
| LoginPage.PatternIsUnanchored | src/app/login/page.tsx:54 | text around an address-like part is accepted; a domain without a dot is refused |
| CreateTicketPage.WithValue | src/app/tickets/create/page.tsx:26-30 | the edited field takes the new value and every other field keeps its value |
| CreateTicketPage.FieldError | src/app/tickets/create/page.tsx:43-77 | a checked field has a message exactly when it is blank after trimming, or it is the price and `parseFloat` gives NaN; the message is the number message for a non-blank price and the field's "is required" message otherwise |
| CreateTicketPage.CollectAdd | src/app/tickets/create/page.tsx:43-77 | looking at one more field adds its message, if any, to the map built so far |
| CreateTicketPage.StepsPrefix | src/app/tickets/create/page.tsx:43-77 | checking one more field in order records one more message |
| CreateTicketPage.StepsCollect | src/app/tickets/create/page.tsx:43-77 | checking the fields one after another builds the same map as collecting the messages of all of them |
| CreateTicketPage.ErrorsFor | src/app/tickets/create/page.tsx:43-80 | the error map has an entry exactly for each failing checked field, with that field's message, and nothing for `type` or `description` |
| CreateTicketPage.ChecksInOrder | src/app/tickets/create/page.tsx:43-80 | checking title, section, row, seat, price, event date, venue and artist in that order yields exactly `ErrorsFor` |
| CreateTicketPage.NoErrorsMeansComplete | src/app/tickets/create/page.tsx:79-80 | the form is valid exactly when every checked field is non-blank and the price parses |
| CreateTicketPage.BlankFormRefused | src/app/tickets/create/page.tsx:10-22 | a form with all checked fields empty, like the initial one, gets all eight "is required" messages |
| CreateTicketPage.CreateTicketForm.constructor | src/app/tickets/create/page.tsx:10-24 | the page starts on the blank form with type `Standard`, no errors and no purchase under way |
| CreateTicketPage.CreateTicketForm.HandleChange | src/app/tickets/create/page.tsx:25-40 | sets the field; drops that field's message if it had a non-empty one; every other message stays |
| CreateTicketPage.CreateTicketForm.ValidateForm | src/app/tickets/create/page.tsx:43-81 | the error map is replaced, not merged, by `ErrorsFor` of the form, and the result is true exactly when it is empty |
| CreateTicketPage.CreateTicketForm.HandleSubmit | src/app/tickets/create/page.tsx:83-99 | validation runs first; the purchase starts only if it passed; the form is unchanged |
| Navbar.IsActive | src/app/components/Navbar.tsx:20-24 | the home link is active only on `/`; any other link is active exactly on paths that start with its target |
| Navbar.ActiveBelowTarget | src/app/components/Navbar.tsx:20-24 | a non-home link stays active on every path below its target |
| Navbar.HomeOnlyOnHome | src/app/components/Navbar.tsx:20-24 | the home link is inactive on every other path |
| Navbar.FragmentLinksNeverActive | src/app/components/Navbar.tsx:285-291 | a pathname never holds `#`, so the `/#lineup` and `/#schedule` links are never active |
| Navbar.ListPageHighlights | src/app/components/Navbar.tsx:279-297 | on `/tickets/list` the tickets link is active and the home and lineup links are not |

## Left out

- The session context (`useAuth`, `login`, `isAuthenticated`, `isLoading`) is not part of this model. `login` is a parameter of `LoginForm.HandleSubmit`.
- The redirect to `/login` for signed-out users on the list page is left out. It depends on that session context.
- Asynchrony is left out: the `await` of `login`, the one-second `setTimeout`, and the router pushes. `HandleSubmit` returns whether a redirect is asked for.
- Rendering, GSAP animations, the mobile menu, the scroll state and hydration suppression are presentation and are left out.
- Prices are integer cents. No arithmetic is done on them.
- `parseFloat` is modelled only as the NaN test the purchase form performs, not as the number it returns.
- The clock is the `now` parameter of `UserDirectory.Register`. `toISOString` formatting is not modelled.
- The ticket detail page under `tickets/[id]` works on its own mock support tickets, with string ids, a status and comments, not on the catalog. It is not part of this model.
- LoginPage.LooksLikeEmail: `\S` is judged per Unicode scalar value, while a JavaScript regular expression without the `u` flag looks at UTF-16 code units. That only matters for unpaired surrogates, which Dafny strings cannot hold. (`.length` is counted in UTF-16 code units by `Utf16Length`.)
- React's batching of state updates is not modelled. Each handler's updates take effect in order, and the `errors` value a handler reads is the current one, not the one from its render.
- TicketList.TicketListPage.RecomputeStats is a separate method. The model does not force it to run after every toggle; `StatsOf` and `ToggleMovesOneTicket` state what it stores once it has run.
- CreateTicketPage.CreateTicketForm.ValidateForm walks the eight checked fields in a loop over `CheckOrder`. The source writes out eight `if` blocks, which `FieldError` states field by field. `Object.keys(newErrors).length === 0` is modelled as the map being empty.
- Ticket ids are `int`. In the source `id` is a JavaScript `number`, so `getTicketById` and `toggleTicketUsage` could be called with a fraction or NaN. Such an id never equals a catalog id, so the lookup finds nothing and the toggle changes nothing; the model cannot express those calls.
- Text.DecimalString: models `toString()` only as digit strings. JavaScript prints numbers from 10^21 on in exponent notation; the ids built from it stay far below that, as an array's length is below 2^32.
