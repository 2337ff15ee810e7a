/**
 * Startup configuration of the related-videos service: which optional route
 * planner is built from the `IP_BLOCKS` and `EXCLUDE_IP_ADDRESSES` environment
 * variables, the scraper timeout from `SCRAPER_TIMEOUT`, and the log lines
 * these decisions produce. The environment is read once, so the whole startup
 * is one function from the environment to its result.
 */
module Bootstrap {
  import opened Wrappers

  // ---------------------------------------------------------------------------
  // String.prototype.split with a one-character separator, and its inverse join
  // ---------------------------------------------------------------------------

  /** How many times `c` occurs in `s`. */
  function Count(s: string, c: char): nat {
    if s == [] then 0 else (if s[0] == c then 1 else 0) + Count(s[1..], c)
  }

  /**
   * `s.split(sep)`: the maximal separator-free pieces between separators, empty
   * pieces included; there is always one piece more than there are separators.
   */
  function Split(s: string, sep: char): (parts: seq<string>)
    ensures |parts| == Count(s, sep) + 1
    ensures forall i :: 0 <= i < |parts| ==> sep !in parts[i]
  {
    if s == [] then [""]
    else
      var rest := Split(s[1..], sep);
      if s[0] == sep then [""] + rest
      else [[s[0]] + rest[0]] + rest[1..]
  }

  /** `parts.join(sep)`. */
  function Join(parts: seq<string>, sep: char): string {
    if |parts| == 0 then ""
    else if |parts| == 1 then parts[0]
    else parts[0] + [sep] + Join(parts[1..], sep)
  }

  /** Joining the pieces with the separator gives back the split string. */
  lemma {:induction false} JoinSplit(s: string, sep: char)
    ensures Join(Split(s, sep), sep) == s
  {
    if s != [] {
      var rest := Split(s[1..], sep);
      JoinSplit(s[1..], sep);
      if s[0] == sep {
        assert Join(Split(s, sep), sep) == "" + [sep] + Join(rest, sep);
        assert s == [s[0]] + s[1..];
      } else if |rest| == 1 {
        assert s == [s[0]] + s[1..];
      } else {
        assert Join(rest, sep) == rest[0] + [sep] + Join(rest[1..], sep);
        assert rest[1..][1..] == rest[2..];
        assert Join(Split(s, sep), sep) == [s[0]] + rest[0] + [sep] + Join(rest[1..], sep);
        assert s == [s[0]] + s[1..];
      }
    }
  }

  /** A separator-free string is one piece. */
  lemma {:induction false} SplitNoSeparator(a: string, sep: char)
    requires sep !in a
    ensures Split(a, sep) == [a]
  {
    if a != [] {
      SplitNoSeparator(a[1..], sep);
      assert a == [a[0]] + a[1..];
    }
  }

  /** Splitting stops the first piece at the first separator. */
  lemma {:induction false} SplitAfterPiece(a: string, sep: char, b: string)
    requires sep !in a
    ensures Split(a + [sep] + b, sep) == [a] + Split(b, sep)
  {
    var s := a + [sep] + b;
    if a == [] {
      assert s[1..] == b;
    } else {
      assert s[1..] == a[1..] + [sep] + b;
      SplitAfterPiece(a[1..], sep, b);
      assert a == [a[0]] + a[1..];
    }
  }

  /** Splitting a join of separator-free pieces gives back the pieces. */
  lemma {:induction false} SplitJoin(parts: seq<string>, sep: char)
    requires |parts| >= 1
    requires forall i :: 0 <= i < |parts| ==> sep !in parts[i]
    ensures Split(Join(parts, sep), sep) == parts
  {
    if |parts| == 1 {
      SplitNoSeparator(parts[0], sep);
    } else {
      SplitJoin(parts[1..], sep);
      SplitAfterPiece(parts[0], sep, Join(parts[1..], sep));
      assert parts == [parts[0]] + parts[1..];
    }
  }

  // ---------------------------------------------------------------------------
  // Environment-driven configuration
  // ---------------------------------------------------------------------------

  /** The environment variables read at startup; `None` is an unset variable. */
  datatype Env = Env(ipBlocks: Option<string>, excludeIpAddresses: Option<string>, scraperTimeout: Option<string>)

  /** The options handed to the route planner's constructor. */
  datatype PlannerConfig = PlannerConfig(ipBlocks: seq<string>, excludeIps: Option<seq<string>>)

  /**
   * The scraper timeout: a number of milliseconds, or whatever `parseInt` makes
   * of the variable's text (JavaScript number parsing is not part of this model).
   */
  datatype Timeout = Millis(ms: int) | ParseIntOf(text: string)

  /** What startup logs, in order. */
  datatype LogEvent =
    | RoutePlannerEnabled(ipBlockCount: nat)   // info: "Route planner is enabled. <n> IP blocks are loaded."
    | ExcludeWithoutBlocksWarning              // warn: "EXCLUDE_IP_ADDRESSES is set but IP_BLOCKS is not set. ..."
    | ScraperTimeoutSet(timeout: Timeout)      // info: "Scraper timeout is set to <t>ms."

  datatype Startup = Startup(routePlanner: Option<PlannerConfig>, scraperTimeout: Timeout, log: seq<LogEvent>)

  const DefaultTimeoutMs := 10000
  const Separator := ';'

  /** The configuration and the log derived from the environment at startup. */
  function Configure(env: Env): (c: Startup)
    ensures c.routePlanner.Some? <==> Truthy(env.ipBlocks)
    ensures c.routePlanner.Some? ==>
      && Join(c.routePlanner.value.ipBlocks, Separator) == env.ipBlocks.value
      && |c.routePlanner.value.ipBlocks| == Count(env.ipBlocks.value, Separator) + 1
      && (c.routePlanner.value.excludeIps.Some? <==> Truthy(env.excludeIpAddresses))
      && (forall i :: 0 <= i < |c.routePlanner.value.ipBlocks| ==> Separator !in c.routePlanner.value.ipBlocks[i])
      && (c.routePlanner.value.excludeIps.Some? ==>
            && Join(c.routePlanner.value.excludeIps.value, Separator) == env.excludeIpAddresses.value
            && |c.routePlanner.value.excludeIps.value| == Count(env.excludeIpAddresses.value, Separator) + 1
            && forall i :: 0 <= i < |c.routePlanner.value.excludeIps.value| ==>
                 Separator !in c.routePlanner.value.excludeIps.value[i])
    ensures ExcludeWithoutBlocksWarning in c.log <==> Truthy(env.excludeIpAddresses) && !Truthy(env.ipBlocks)
    ensures ExcludeWithoutBlocksWarning in c.log ==> c.routePlanner.None?
    ensures forall n :: RoutePlannerEnabled(n) in c.log <==>
      c.routePlanner.Some? && n == |c.routePlanner.value.ipBlocks|
    ensures !Truthy(env.scraperTimeout) ==> c.scraperTimeout == Millis(DefaultTimeoutMs)
    ensures Truthy(env.scraperTimeout) ==> c.scraperTimeout == ParseIntOf(env.scraperTimeout.value)
    ensures ScraperTimeoutSet(c.scraperTimeout) in c.log <==> Truthy(env.scraperTimeout)
    ensures |c.log| == (if c.routePlanner.Some? then 1 else 0)
                     + (if Truthy(env.excludeIpAddresses) && !Truthy(env.ipBlocks) then 1 else 0)
                     + (if Truthy(env.scraperTimeout) then 1 else 0)
    ensures c.routePlanner.Some? ==> c.log[0] == RoutePlannerEnabled(|c.routePlanner.value.ipBlocks|)
    ensures Truthy(env.scraperTimeout) ==> c.log[|c.log| - 1] == ScraperTimeoutSet(c.scraperTimeout)
  {
    var planner :=
      if Truthy(env.ipBlocks) then
        JoinSplit(env.ipBlocks.value, Separator);
        var excludes :=
          if Truthy(env.excludeIpAddresses) then
            JoinSplit(env.excludeIpAddresses.value, Separator);
            Some(Split(env.excludeIpAddresses.value, Separator))
          else None;
        Some(PlannerConfig(Split(env.ipBlocks.value, Separator), excludes))
      else None;
    var timeout :=
      if Truthy(env.scraperTimeout) then ParseIntOf(env.scraperTimeout.value) else Millis(DefaultTimeoutMs);
    var log :=
      (if planner.Some? then [RoutePlannerEnabled(|planner.value.ipBlocks|)] else [])
      + (if Truthy(env.excludeIpAddresses) && !Truthy(env.ipBlocks) then [ExcludeWithoutBlocksWarning] else [])
      + (if Truthy(env.scraperTimeout) then [ScraperTimeoutSet(timeout)] else []);
    Startup(planner, timeout, log)
  }

  /**
   * Separator-free pieces that join to a text are the split of that text:
   * a list satisfying both is unique.
   */
  lemma SplitIsDetermined(parts: seq<string>, text: string, sep: char)
    requires |parts| >= 1
    requires forall i :: 0 <= i < |parts| ==> sep !in parts[i]
    requires Join(parts, sep) == text
    ensures parts == Split(text, sep)
  {
    SplitJoin(parts, sep);
  }

  /**
   * The route planner's lists are exactly the `;`-split variables: `IP_BLOCKS`
   * split, and `EXCLUDE_IP_ADDRESSES` split when it is set. Both follow from the
   * contract of `Configure` alone.
   */
  lemma PlannerListsAreTheSplits(env: Env)
    requires Truthy(env.ipBlocks)
    ensures Configure(env).routePlanner.Some?
    ensures Configure(env).routePlanner.value.ipBlocks == Split(env.ipBlocks.value, Separator)
    ensures Configure(env).routePlanner.value.excludeIps ==
      if Truthy(env.excludeIpAddresses) then Some(Split(env.excludeIpAddresses.value, Separator)) else None
  {
    var p := Configure(env).routePlanner.value;
    SplitIsDetermined(p.ipBlocks, env.ipBlocks.value, Separator);
    if Truthy(env.excludeIpAddresses) {
      SplitIsDetermined(p.excludeIps.value, env.excludeIpAddresses.value, Separator);
    }
  }

  /** Setting only `EXCLUDE_IP_ADDRESSES` warns and builds no route planner. */
  lemma ExcludesAloneAreIgnored(excludes: string, timeout: Option<string>)
    requires excludes != ""
    ensures Configure(Env(None, Some(excludes), timeout)).routePlanner.None?
    ensures ExcludeWithoutBlocksWarning in Configure(Env(None, Some(excludes), timeout)).log
  {
  }
}
