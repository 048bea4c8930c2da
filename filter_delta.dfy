/**
 * New-table detection: has the configured allow-list (whitelist) of databases or
 * tables gained an element, or the configured deny-list (blacklist) lost one,
 * relative to the lists recorded in the stored offsets? Pattern strings are
 * compared as opaque tokens; nothing is matched against a live schema.
 */
module FilterDelta {
  import opened Wrappers
  import opened ListSplit

  /** The four filter lists, each a comma-joined string that may be absent (null). */
  datatype FilterLists = FilterLists(
    databaseWhitelist: Option<string>,
    databaseBlacklist: Option<string>,
    tableWhitelist: Option<string>,
    tableBlacklist: Option<string>)

  /** `s == null || s.isEmpty()`. */
  predicate Blank(s: Option<string>) {
    s.None? || s.value == []
  }

  /** The distinct pieces of a list. */
  function Tokens(sep: Separator, s: string): (r: set<string>) {
    set x | x in Split(sep, s)
  }

  /**
   * Whether the list `a` names an element that the list `b` does not: never for a
   * blank `a`, always for a non-blank `a` against a blank `b`, and otherwise
   * exactly when some piece of `a` is not among the pieces of `b`.
   */
  function HasExclusiveElements(sep: Separator, a: Option<string>, b: Option<string>): (r: bool)
    ensures Blank(a) ==> !r
    ensures !Blank(a) && Blank(b) ==> r
    ensures !Blank(a) && !Blank(b) ==>
      (r <==> exists x :: x in Split(sep, a.value) && x !in Split(sep, b.value))
  {
    if Blank(a) then false
    else if Blank(b) then true
    else
      var bSet := Tokens(sep, b.value);
      var exclusive := set x | x in Split(sep, a.value) && x !in bSet;
      assert exclusive != {} ==> exists x :: x in Split(sep, a.value) && x !in Split(sep, b.value) by {
        if exclusive != {} {
          var w :| w in exclusive;
        }
      }
      assert (exists x :: x in Split(sep, a.value) && x !in Split(sep, b.value)) ==> exclusive != {} by {
        if exists x :: x in Split(sep, a.value) && x !in Split(sep, b.value) {
          var w :| w in Split(sep, a.value) && w !in Split(sep, b.value);
          assert w in exclusive;
        }
      }
      exclusive != {}
  }

  /** A list never has elements exclusive of itself, whatever the separator. */
  lemma NoExclusiveElementsOfItself(sep: Separator, a: Option<string>)
    ensures !HasExclusiveElements(sep, a, a)
  {
  }

  /** A list whose pieces all occur among the pieces of a non-blank `b` has nothing exclusive of `b`. */
  lemma NoExclusiveElementsOfSuperlist(sep: Separator, a: Option<string>, b: Option<string>)
    requires !Blank(b)
    requires !Blank(a) ==> forall x :: x in Split(sep, a.value) ==> x in Split(sep, b.value)
    ensures !HasExclusiveElements(sep, a, b)
  {
  }

  /**
   * Whether tables appear to have been added to the configuration: never without
   * stored filter lists; otherwise if either whitelist gained an element (config
   * against stored) or either blacklist lost one (stored against config).
   */
  function NewTablesInConfig(sep: Separator, stored: Option<FilterLists>, config: FilterLists): (r: bool)
    ensures stored.None? ==> !r
    ensures stored == Some(config) ==> !r
    ensures stored.Some? ==>
      (r <==> || HasExclusiveElements(sep, config.databaseWhitelist, stored.value.databaseWhitelist)
              || HasExclusiveElements(sep, config.tableWhitelist, stored.value.tableWhitelist)
              || HasExclusiveElements(sep, stored.value.databaseBlacklist, config.databaseBlacklist)
              || HasExclusiveElements(sep, stored.value.tableBlacklist, config.tableBlacklist))
  {
    if stored.None? then false
    else
      var s := stored.value;
      if HasExclusiveElements(sep, config.databaseWhitelist, s.databaseWhitelist) then true
      else if HasExclusiveElements(sep, config.tableWhitelist, s.tableWhitelist) then true
      else if HasExclusiveElements(sep, s.databaseBlacklist, config.databaseBlacklist) then true
      else if HasExclusiveElements(sep, s.tableBlacklist, config.tableBlacklist) then true
      else false
  }

  /** Adding a table to a non-empty stored table whitelist is reported as new tables. */
  lemma AddedWhitelistedTableIsNew(sep: Separator, stored: FilterLists, config: FilterLists, t: string)
    requires !Blank(stored.tableWhitelist) && !Blank(config.tableWhitelist)
    requires t in Split(sep, config.tableWhitelist.value) && t !in Split(sep, stored.tableWhitelist.value)
    ensures NewTablesInConfig(sep, Some(stored), config)
  {
  }

  /** Dropping a table from the stored table blacklist (or the whole blacklist) is reported as new tables. */
  lemma UnblacklistedTableIsNew(sep: Separator, stored: FilterLists, config: FilterLists, t: string)
    requires !Blank(stored.tableBlacklist)
    requires t in Split(sep, stored.tableBlacklist.value)
    requires !Blank(config.tableBlacklist) ==> t !in Split(sep, config.tableBlacklist.value)
    ensures NewTablesInConfig(sep, Some(stored), config)
  {
  }

  /** Under the intended comma separator, reordering a list of clean names does not look like new tables. */
  lemma ReorderedListHasNoExclusiveElements(xs: seq<string>, ys: seq<string>)
    requires |xs| > 0 && |ys| > 0
    requires forall k :: 0 <= k < |xs| ==> CleanToken(xs[k])
    requires forall k :: 0 <= k < |ys| ==> CleanToken(ys[k])
    requires forall x :: x in xs ==> x in ys
    ensures !HasExclusiveElements(CommaSeparator, Some(Join(xs)), Some(Join(ys)))
  {
    SplitJoinRoundTrip(xs);
    SplitJoinRoundTrip(ys);
    assert Join(ys) != [] by {
      JoinStartsWithToken(ys);
    }
    NoExclusiveElementsOfSuperlist(CommaSeparator, Some(Join(xs)), Some(Join(ys)));
  }

  /**
   * The separator the task passes, "/s*,/s*", never splits a plain comma list: the
   * stored whitelist "a,b" and the reordered configured whitelist "b,a" are single,
   * different pieces, so reordering is reported as newly added tables, while the
   * intended "\\s*,\\s*" separator sees the same two names.
   */
  lemma SlashSeparatorReportsReorderedList()
    ensures HasExclusiveElements(SlashSeparator, Some("b,a"), Some("a,b"))
    ensures !HasExclusiveElements(CommaSeparator, Some("b,a"), Some("a,b"))
  {
    SplitWithoutSlash("b,a");
    SplitWithoutSlash("a,b");
    assert "b,a" in Split(SlashSeparator, "b,a");
    assert Join(["b", "a"]) == "b,a";
    assert Join(["a", "b"]) == "a,b";
    ReorderedListHasNoExclusiveElements(["b", "a"], ["a", "b"]);
  }
}
