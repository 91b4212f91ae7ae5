# CLEAR pages: presenter and controller model

A Dafny model of the two Ruby classes behind the CLEAR marketing pages (offer
letter, equity amendment, landing page and "how much could your equity be
worth"):

- `Presenter::Clear` (clear.rb), module `Presenter` in `presenter.dfy`: the
  per-page layout and title tables, the fixed colour scheme and size, the CSS
  class strings, and the static table of comparable company exits. All of it
  is pure, so it is modelled as functions and constants.
- `ClearController` (clear_controller.rb), module `Controller` in
  `clear_controller.dfy`: the admin-or-whitelist access gate (a pure decision
  returning `Allow` or `NotFound`), the four page actions, and the narrowing
  of the cached salary statistics that `offer` performs in place. The
  controller is a class whose fields are the Ruby instance variables
  `@compensations`, `@valuations` and `@presenter`, plus the layout handed to
  `render`.

Ruby values are modelled by `RubyValue.Value` (`nil`, Integer, Symbol, String,
Hash). Symbols and Strings are distinct keys, as in Ruby. This matters in
`offer`: it reads the original tables with String keys (`["San Francisco"]`)
but writes the narrowed tables with Symbol keys (`"San Francisco": ...` in a
Hash literal makes the Symbol `:"San Francisco"`). The model keeps that
difference. If the cache returns a plain Ruby Hash, looking a name up by its
String in a narrowed table finds nothing (`NarrowedTablesMissStringKeys`); a
Hash with indifferent access would store all these keys as Strings instead,
which this model does not cover (see "Left out").

Three points where the model keeps the code's behaviour as written:

- The page argument of `layout` and `title` is any Ruby value, not a closed
  enumeration. The String `"offer"` misses the Symbol-keyed table just as an
  unknown Symbol does.
- The narrowing does not tolerate a missing `:tags`, `:locations` or `:roles`
  table: Ruby raises `NoMethodError` on `nil` there. Their presence is
  therefore a precondition (`Controller.HasTagTables`). A missing location or
  role inside a present table does become `nil`.
- No `before_action` attaches `require_admin_or_whitelist` to any action.
  The gate is modelled on its own, and no action is claimed to be gated.

## Model

| member | source | states |
|---|---|---|
| `Presenter.PageOf` | clear.rb:68-73 | The four table Symbols `:offer`, `:amendment`, `:landing`, `:how_much` name exactly the four pages; `PageOf` inverts `PageKey.Symbol`. |
| `Presenter.Layout` | clear.rb:67-74 | `layout(page)` is present exactly for the four page Symbols, and is then `'single_column'`; every other value gives `nil`. |
| `Presenter.Title` | clear.rb:76-83 | `title(page)` is present exactly for the four page Symbols, and is then a non-empty string; every other value gives `nil`. |
| `Presenter.LayoutOfEveryPage` | clear.rb:67-74 | Each of the four pages resolves to `'single_column'`. |
| `Presenter.DefaultPageIsOffer` | clear.rb:67-83 | Calling `layout`/`title` without an argument equals calling them with `:offer`; the default title is `'CLEAR Offer Letter'`. |
| `Presenter.UnknownPageIsAbsent` | clear.rb:67-83 | A value naming no page is absent from both tables; a miss is not replaced by a default. |
| `Presenter.TitlesDistinct` | clear.rb:76-83 | Two different pages have two different titles. |
| `Presenter.HowMuchTitle` | clear.rb:81 | The `how_much` title is `'CLEAR: How Much Could Your Equity Be Worth?'`. |
| `Presenter.LayoutScheme` | clear.rb:85-87 | `layout_scheme(page)` is `:white_all`, whatever the page argument; `SchemeAndSizeAreFixed` states the independence from the argument. |
| `Presenter.LayoutSize` | clear.rb:89-91 | `layout_size` is `:large`. |
| `Presenter.ComparableExits` | clear.rb:93-166 | `comparable_exits` has five tiers, each listing at least one company; `ExitTierApproxes`, `ExitTiersIncreasing` and `ExitCompaniesWellFormed` state the tier values, their order and the company entries. |
| `Presenter.SchemeAndSizeAreFixed` | clear.rb:85-91 | `layout_scheme(p)` is `:white_all` for every argument, known page or not, and equals the default call; `layout_size` is `:large`. |
| `Presenter.SectionStyle` | clear.rb:19-25 | `section_style` starts with `section_style_no_margin`, and what follows is `" s-vgBottom8"`. |
| `Presenter.ExitTierApproxes` | clear.rb:93-166 | `comparable_exits` has five tiers, approximately 100M, 500M, 1B, 5B and 10B, in that order. |
| `Presenter.ExitTiersIncreasing` | clear.rb:93-166 | The tiers' approximate values strictly increase, in the literal table and in the corrected one. |
| `Presenter.ExitCompaniesWellFormed` | clear.rb:97-163 | Every tier lists at least one company; every company has a non-empty name and a URL starting with `https://angel.co/`. |
| `Presenter.CaviarMisplaced` | clear.rb:95-104 | As written, Caviar's value is 9,010,001,000. The table then breaks the nearest-tier property: the 10B tier is nearer than its own 100M tier. |
| `Presenter.CorrectedExits` | clear.rb:95-104 | The corrected table has the literal table's length and approximate values; its first tier lists only Caviar, with value 90,000,000 and the literal name and URL; every other tier equals the literal one. |
| `Presenter.CorrectedExitsInNearestTier` | clear.rb:93-166 | With Caviar at 90,000,000, every company sits in the tier whose approximate value is nearest its own value. |
| `Controller.RequireAdminOrWhitelist` | clear_controller.rb:27-32 | The gate allows exactly when the user is signed in and is an admin or has a whitelisted slug; otherwise it is `NotFound`. |
| `Controller.SignedOutIsNotFound` | clear_controller.rb:28 | Signed out gives `NotFound`, whatever the admin flag and slug. |
| `Controller.AdminPasses` | clear_controller.rb:29 | A signed-in admin passes even with a slug that is not whitelisted. |
| `Controller.NonAdminNeedsWhitelist` | clear_controller.rb:29-31 | A signed-in non-admin passes if and only if the slug is on `USER_SLUG_WHITELIST`. |
| `Controller.WhitelistContents` | clear_controller.rb:3-24 | The whitelist has 20 slugs; `bmath` is on it and `nobody` is not. |
| `Controller.DenialsIndistinguishable` | clear_controller.rb:27-32 | Denial for being signed out and denial for being off the whitelist are the same outcome. |
| `Controller.NarrowedTags` | clear_controller.rb:39-53 | The new `:tags` entry is a Hash with exactly the keys `:locations` and `:roles`, both Hashes. |
| `Controller.NarrowedLocations` | clear_controller.rb:39-43 | The narrowed locations have exactly the keys San Francisco and New York City. Each value is the original entry, or `nil` where the original has none. |
| `Controller.NarrowedRoles` | clear_controller.rb:39-53 | The narrowed roles have exactly the seven listed roles as keys. Each value is the original entry, or `nil` where the original has none. |
| `Controller.NarrowedTablesMissStringKeys` | clear_controller.rb:40-52 | The narrowed tables are keyed by Symbols, so a String lookup of any name misses them. |
| `Controller.NarrowingExample` | clear_controller.rb:39-53 | A cache holding San Francisco = 42 and no New York City narrows to San Francisco 42 and New York City `nil`. |
| `Controller.ClearController.Offer` | clear_controller.rb:35-58 | A `nil` cache entry leaves `@compensations` `nil`. Otherwise the method overwrites only the `:tags` entry, with `NarrowedTags`; every other key and value is kept. `@valuations` is the second cache entry, and the render uses the default (`:offer`) layout, `'single_column'`. |
| `Controller.ClearController.Landing` | clear_controller.rb:61-64 | `landing` renders with `layout(:landing)`, i.e. `'single_column'`, and leaves the statistics unchanged. |
| `Controller.ClearController.Amendment` | clear_controller.rb:67-70 | `amendment` renders with the default (`:offer`) layout and leaves the statistics unchanged. |
| `Controller.ClearController.HowMuch` | clear_controller.rb:73-76 | `how_much` renders with the default (`:offer`) layout and leaves the statistics unchanged. |

## Findings

| source | as written | input that shows it | evidently intended | confidence | as-written member | corrected member |
|---|---|---|---|---|---|---|
| clear.rb:100 | Caviar's `value: 90_1000_1000`, which is 9,010,001,000, listed in the 100M tier | The Caviar entry itself: 9,010,001,000 is 989,999,000 away from the 10B tier and 8,910,001,000 away from its own 100M tier | `90_000_000` (90M, in the 100M tier); every other company already sits in its nearest tier | high; not executed | `Presenter.CaviarMisplaced` | `Presenter.CorrectedExitsInNearestTier` |

`Presenter.ComparableExits` keeps the literal as written. `Presenter.CorrectedExits` is the same table with only Caviar's value changed.

## Left out

- The CSS class-string methods other than `section_style` are constants in `Presenter` with no properties of their own.
- `CacheItem.get_cache`, the cache store, is not modelled. `offer` takes the cache contents as a map from key to stored value, and a missing key reads as `nil`.
- `user_signed_in?`, `current_user.admin?` and `current_user.slug_name` come from the authentication layer, which is not part of this model. The gate takes them as arguments.
- `render`, the view templates and `Presenter::Base` are not part of this model. Only the layout handed to `render` is recorded, in `ClearController.response`.
- Exceptions are not modelled as control flow. `ActiveRecord::RecordNotFound` is the `NotFound` outcome of the gate.
- `Controller.ClearController.Offer`: the `NoMethodError` raised when the cached statistics lack a `:tags`, `:locations` or `:roles` Hash is not modelled. That shape is a precondition instead.
- `Controller.ClearController.Offer`: the in-place write to the Hash object returned by the cache is modelled as a new value assigned to `@compensations`. Aliasing with the cache's own copy is not captured.
- `Controller.NarrowedTags`: Ruby Hashes keep insertion order, so the view receives San Francisco before New York City and the roles in the order written. The model's `map` has no order, so that order is not captured; `LocationNames` and `RoleNames` record it but no contract states it of the narrowed Hashes.
- `Controller.NarrowedTablesMissStringKeys`: the model assumes `CacheItem.get_cache` returns a plain Hash. If it returns a Hash with indifferent access, the written Symbol keys are stored as Strings, String lookups then succeed, and this lemma does not describe that case.
- Ruby values other than `nil`, Integer, Symbol, String and Hash are not modelled, and neither are Hash default values or default procs.
