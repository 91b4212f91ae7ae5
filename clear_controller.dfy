/**
  `ClearController` (clear_controller.rb): the admin-or-whitelist access
  gate, the four page actions, and the narrowing of the cached salary
  statistics that `offer` performs before rendering.

  The session (`user_signed_in?`, `current_user`) and the cache store
  (`CacheItem.get_cache`) are not part of this model: the gate takes the
  signed-in flag, the admin flag and the slug as arguments, and the actions
  take the cache's contents as a map from cache key to stored value.
*/
module Controller {
  import opened Wrappers
  import opened RubyValue
  import Presenter

  // ---------------------------------------------------------------------
  // Access gate
  // ---------------------------------------------------------------------

  /** `USER_SLUG_WHITELIST`: the users admitted without the admin flag. */
  const UserSlugWhitelist: seq<string> := [
    "bmath", "mcgd", "johnolilly", "pt", "josh-elman",
    "tomfrange", "brendan", "kevinakwok", "tihomir-bajic", "marcus-gosling",
    "komal-sethi", "melissa-gail-pancoast", "russh", "ericries", "nguyen",
    "gary-ross-3", "arina-shulga-1", "streeter", "devon-boulton-mills", "stevenewcomb"
  ]

  /**
    The outcome of the gate: it returns normally, or it raises
    `ActiveRecord::RecordNotFound`. There is one denial, whatever the reason.
  */
  datatype Gate = Allow | NotFound

  /**
    `require_admin_or_whitelist`: raise unless signed in, then raise unless
    the user is an admin or their slug is on the whitelist.
  */
  function RequireAdminOrWhitelist(signedIn: bool, admin: bool, slugName: string): (r: Gate)
    ensures r == Allow <==> signedIn && (admin || slugName in UserSlugWhitelist)
  {
    if !signedIn then NotFound
    else if !(admin || slugName in UserSlugWhitelist) then NotFound
    else Allow
  }

  /** Signed out: not found, whatever the admin flag and the slug. */
  lemma SignedOutIsNotFound(admin: bool, slugName: string)
    ensures RequireAdminOrWhitelist(false, admin, slugName) == NotFound
  {
  }

  /** A signed-in admin passes, whitelisted or not. */
  lemma AdminPasses(slugName: string)
    ensures RequireAdminOrWhitelist(true, true, slugName) == Allow
  {
  }

  /** A signed-in user who is not an admin passes exactly when the slug is whitelisted. */
  lemma NonAdminNeedsWhitelist(slugName: string)
    ensures RequireAdminOrWhitelist(true, false, slugName) == Allow <==> slugName in UserSlugWhitelist
  {
  }

  /** The whitelist has twenty slugs, `bmath` among them and `nobody` not. */
  lemma WhitelistContents()
    ensures |UserSlugWhitelist| == 20
    ensures "bmath" in UserSlugWhitelist && "nobody" !in UserSlugWhitelist
  {
  }

  /**
    Both ways of being denied (signed out, or signed in without admin flag
    and off the whitelist) give the same outcome, so a caller cannot tell
    them apart.
  */
  lemma DenialsIndistinguishable(admin: bool, slugName: string, otherSlug: string)
    requires otherSlug !in UserSlugWhitelist
    ensures RequireAdminOrWhitelist(false, admin, slugName) == RequireAdminOrWhitelist(true, false, otherSlug)
  {
  }

  // ---------------------------------------------------------------------
  // Narrowing of the salary statistics in `offer`
  // ---------------------------------------------------------------------

  const SalariesCacheKey := "__cache_salaries_stats__"
  const ValuationsCacheKey := "__cache_valuation_stats__"

  /** The locations kept, in the order the source lists them. */
  const LocationNames: seq<string> := ["San Francisco", "New York City"]

  /** The roles kept, in the order the source lists them. */
  const RoleNames: seq<string> := [
    "Developer", "Designer", "Mobile Developer", "Frontend Developer",
    "Backend Developer", "Full Stack Developer", "Product Manager"
  ]

  /** `CacheItem.get_cache key`: the stored value, or `nil` on a miss. */
  function CacheGet(cache: map<string, Value>, key: string): Value
  {
    if key in cache then cache[key] else Nil
  }

  /**
    What the narrowing indexes without a guard: `[:tags]`, then
    `[:tags][:locations]` and `[:tags][:roles]`, each a Hash. On any other
    shape Ruby raises `NoMethodError` on `nil`.
  */
  predicate HasTagTables(stats: map<Value, Value>)
  {
    Sym("tags") in stats && stats[Sym("tags")].Hash? &&
    Sym("locations") in stats[Sym("tags")].entries &&
    stats[Sym("tags")].entries[Sym("locations")].Hash? &&
    Sym("roles") in stats[Sym("tags")].entries &&
    stats[Sym("tags")].entries[Sym("roles")].Hash?
  }

  function Tags(stats: map<Value, Value>): map<Value, Value>
    requires HasTagTables(stats)
  {
    stats[Sym("tags")].entries
  }

  function Locations(stats: map<Value, Value>): map<Value, Value>
    requires HasTagTables(stats)
  {
    Tags(stats)[Sym("locations")].entries
  }

  function Roles(stats: map<Value, Value>): map<Value, Value>
    requires HasTagTables(stats)
  {
    Tags(stats)[Sym("roles")].entries
  }

  /**
    `narrowed` holds one entry per name, keyed by the name's Symbol, and
    each entry is what `original` holds at the name's String (`nil` when it
    holds nothing there).
  */
  ghost predicate NarrowedTo(narrowed: map<Value, Value>, original: map<Value, Value>, names: seq<string>)
  {
    narrowed.Keys == (set n | n in names :: Sym(n)) &&
    forall i :: 0 <= i < |names| ==> narrowed[Sym(names[i])] == Fetch(original, Str(names[i]))
  }

  /**
    The new `:tags` entry that `offer` writes: a Hash with exactly
    `:locations` and `:roles`, narrowed to the two locations and the seven
    roles. The entries are read with String keys and written with Symbol
    keys (`"San Francisco": ...` in a Ruby Hash literal is a Symbol key).
  */
  function NarrowedTags(stats: map<Value, Value>): (r: Value)
    requires HasTagTables(stats)
    ensures r.Hash? && r.entries.Keys == {Sym("locations"), Sym("roles")}
    ensures r.entries[Sym("locations")].Hash? && r.entries[Sym("roles")].Hash?
  {
    var locations := Locations(stats);
    var roles := Roles(stats);
    Hash(map[
      Sym("locations") := Hash(map[
        Sym("San Francisco") := Fetch(locations, Str("San Francisco")),
        Sym("New York City") := Fetch(locations, Str("New York City"))
      ]),
      Sym("roles") := Hash(map[
        Sym("Developer") := Fetch(roles, Str("Developer")),
        Sym("Designer") := Fetch(roles, Str("Designer")),
        Sym("Mobile Developer") := Fetch(roles, Str("Mobile Developer")),
        Sym("Frontend Developer") := Fetch(roles, Str("Frontend Developer")),
        Sym("Backend Developer") := Fetch(roles, Str("Backend Developer")),
        Sym("Full Stack Developer") := Fetch(roles, Str("Full Stack Developer")),
        Sym("Product Manager") := Fetch(roles, Str("Product Manager"))
      ])
    ])
  }

  /**
    The narrowed `:locations` table holds exactly the two locations, each
    copied from the original table or `nil` where the original has no entry.
  */
  lemma NarrowedLocations(stats: map<Value, Value>)
    requires HasTagTables(stats)
    ensures NarrowedTo(NarrowedTags(stats).entries[Sym("locations")].entries, Locations(stats), LocationNames)
  {
  }

  /**
    The narrowed `:roles` table holds exactly the seven roles, each copied
    from the original table or `nil` where the original has no entry.
  */
  lemma NarrowedRoles(stats: map<Value, Value>)
    requires HasTagTables(stats)
    ensures NarrowedTo(NarrowedTags(stats).entries[Sym("roles")].entries, Roles(stats), RoleNames)
  {
    var narrowed := NarrowedTags(stats).entries[Sym("roles")].entries;
    forall i | 0 <= i < |RoleNames|
      ensures Sym(RoleNames[i]) in narrowed
      ensures narrowed[Sym(RoleNames[i])] == Fetch(Roles(stats), Str(RoleNames[i]))
    {
    }
    SymbolsOf(RoleNames, narrowed.Keys);
  }

  /** The Symbols of `names` are `keys` when each name's Symbol is a key and each key is some name's Symbol. */
  lemma SymbolsOf(names: seq<string>, keys: set<Value>)
    requires forall i :: 0 <= i < |names| ==> Sym(names[i]) in keys
    requires forall k :: k in keys ==> k.Sym? && k.name in names
    ensures keys == (set n | n in names :: Sym(n))
  {
  }

  /**
    Since the narrowed tables are keyed by Symbols, looking a name up in
    them by its String (as the narrowing itself does) finds nothing.
  */
  lemma NarrowedTablesMissStringKeys(stats: map<Value, Value>, name: string)
    requires HasTagTables(stats)
    ensures var t := NarrowedTags(stats).entries;
      Str(name) !in t[Sym("locations")].entries && Str(name) !in t[Sym("roles")].entries
  {
  }

  /**
    A location the cache holds is copied; one it does not hold becomes `nil`
    rather than an error: `{locations: {"San Francisco" => 42}}` narrows to
    San Francisco 42 and New York City `nil`.
  */
  lemma NarrowingExample()
    ensures var stats := map[Sym("tags") := Hash(map[
        Sym("locations") := Hash(map[Str("San Francisco") := Number(42)]),
        Sym("roles") := Hash(map[])])];
      HasTagTables(stats) &&
      NarrowedTags(stats).entries[Sym("locations")].entries ==
        map[Sym("San Francisco") := Number(42), Sym("New York City") := Nil]
  {
  }

  // ---------------------------------------------------------------------
  // The controller and its actions
  // ---------------------------------------------------------------------

  /** What an action hands to `render`: only the layout is modelled. */
  datatype Response = NotRendered | Rendered(layout: Option<string>)

  class ClearController {
    /** `@compensations`: the narrowed salary statistics, or `nil`. */
    var compensations: Value
    /** `@valuations`: the cached valuation statistics, or `nil`. */
    var valuations: Value
    /** `@presenter` */
    var presenter: Option<Presenter.Clear>
    var response: Response

    constructor ()
      ensures compensations == Nil && valuations == Nil
      ensures presenter == None && response == NotRendered
    {
      compensations := Nil;
      valuations := Nil;
      presenter := None;
      response := NotRendered;
    }

    /**
      `offer`: read the salary statistics from the cache and, unless they
      are `nil`, overwrite their `:tags` entry with the narrowed one; read
      the valuation statistics; render with the default (`:offer`) layout.
    */
    method Offer(cache: map<string, Value>)
      requires var stats := CacheGet(cache, SalariesCacheKey);
        stats.Nil? || (stats.Hash? && HasTagTables(stats.entries))
      modifies this
      ensures var stats := CacheGet(cache, SalariesCacheKey);
        if stats.Nil? then compensations == Nil
        else
          compensations.Hash? &&
          compensations.entries.Keys == stats.entries.Keys &&
          compensations.entries[Sym("tags")] == NarrowedTags(stats.entries) &&
          forall k :: k in stats.entries && k != Sym("tags") ==> compensations.entries[k] == stats.entries[k]
      ensures valuations == CacheGet(cache, ValuationsCacheKey)
      ensures presenter == Some(Presenter.Clear)
      ensures response == Rendered(Presenter.Layout()) == Rendered(Some("single_column"))
    {
      compensations := CacheGet(cache, SalariesCacheKey);
      if !compensations.Nil? {
        compensations := Hash(compensations.entries[Sym("tags") := NarrowedTags(compensations.entries)]);
      }
      valuations := CacheGet(cache, ValuationsCacheKey);
      presenter := Some(Presenter.Clear);
      response := Rendered(Presenter.Layout());
    }

    /** `landing`: render with the `:landing` layout. */
    method Landing()
      modifies this`presenter, this`response
      ensures presenter == Some(Presenter.Clear)
      ensures response == Rendered(Presenter.Layout(Presenter.PageKey.Landing.Symbol())) == Rendered(Some("single_column"))
      ensures compensations == old(compensations) && valuations == old(valuations)
    {
      presenter := Some(Presenter.Clear);
      response := Rendered(Presenter.Layout(Presenter.PageKey.Landing.Symbol()));
    }

    /** `amendment`: render with the default (`:offer`) layout. */
    method Amendment()
      modifies this`presenter, this`response
      ensures presenter == Some(Presenter.Clear)
      ensures response == Rendered(Presenter.Layout()) == Rendered(Some("single_column"))
      ensures compensations == old(compensations) && valuations == old(valuations)
    {
      presenter := Some(Presenter.Clear);
      response := Rendered(Presenter.Layout());
    }

    /** `how_much`: render with the default (`:offer`) layout. */
    method HowMuch()
      modifies this`presenter, this`response
      ensures presenter == Some(Presenter.Clear)
      ensures response == Rendered(Presenter.Layout()) == Rendered(Some("single_column"))
      ensures compensations == old(compensations) && valuations == old(valuations)
    {
      presenter := Some(Presenter.Clear);
      response := Rendered(Presenter.Layout());
    }
  }
}
