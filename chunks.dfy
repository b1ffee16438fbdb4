/**
 * The production build's vendor-chunk classifier (`manualChunks` in the Vite
 * configuration): a module id is matched against four groups of package-name
 * patterns in order, and the first group with a pattern inside the id names
 * its chunk.
 */
module Chunks {
  import opened Wrappers
  import opened Strings

  const ReactVendor := "react-vendor"
  const TanstackVendor := "tanstack-vendor"
  const UiVendor := "ui-vendor"
  const UtilsVendor := "utils-vendor"

  const ReactPatterns: seq<string> := ["react", "react-dom"]
  const TanstackPatterns: seq<string> :=
    ["@tanstack/react-query", "@tanstack/react-router", "@tanstack/react-table"]
  const UiPatterns: seq<string> :=
    ["@radix-ui/react-alert-dialog", "@radix-ui/react-avatar", "@radix-ui/react-dropdown-menu",
     "@radix-ui/react-separator", "@radix-ui/react-slot", "@radix-ui/react-switch"]
  const UtilsPatterns: seq<string> := ["axios", "zod", "date-fns", "lucide-react"]

  /** `id.includes(p0) || id.includes(p1) || ...`, evaluated left to right. */
  predicate ContainsAny(id: string, patterns: seq<string>)
    decreases |patterns|
  {
    |patterns| > 0 && (Contains(id, patterns[0]) || ContainsAny(id, patterns[1..]))
  }

  /** `manualChunks(id)`: the first group that matches names the chunk; no match is `undefined`. */
  function ManualChunks(id: string): (r: Option<string>)
    ensures r.None? || r.value in [ReactVendor, TanstackVendor, UiVendor, UtilsVendor]
  {
    if ContainsAny(id, ReactPatterns) then Some(ReactVendor)
    else if ContainsAny(id, TanstackPatterns) then Some(TanstackVendor)
    else if ContainsAny(id, UiPatterns) then Some(UiVendor)
    else if ContainsAny(id, UtilsPatterns) then Some(UtilsVendor)
    else None
  }

  /** What the classifier amounts to: `'react'` anywhere, else one of the three utility packages. */
  function Reduced(id: string): Option<string> {
    if Contains(id, "react") then Some(ReactVendor)
    else if Contains(id, "axios") || Contains(id, "zod") || Contains(id, "date-fns") then Some(UtilsVendor)
    else None
  }

  /** A group matches exactly when one of its patterns occurs in the id. */
  lemma {:induction false} ContainsAnyIff(id: string, patterns: seq<string>)
    ensures ContainsAny(id, patterns) <==> exists k :: 0 <= k < |patterns| && Contains(id, patterns[k])
    decreases |patterns|
  {
    if |patterns| > 0 {
      ContainsAnyIff(id, patterns[1..]);
      if ContainsAny(id, patterns[1..]) {
        var k :| 0 <= k < |patterns[1..]| && Contains(id, patterns[1..][k]);
        assert Contains(id, patterns[k + 1]);
      }
      forall k | 0 < k < |patterns| && Contains(id, patterns[k])
        ensures ContainsAny(id, patterns[1..])
      {
        assert patterns[1..][k - 1] == patterns[k];
      }
    }
  }

  /** A group all of whose patterns mention `'react'` can only match an id that mentions it. */
  lemma GroupImpliesReact(id: string, patterns: seq<string>)
    requires forall k :: 0 <= k < |patterns| ==> Contains(patterns[k], "react")
    requires ContainsAny(id, patterns)
    ensures Contains(id, "react")
  {
    ContainsAnyIff(id, patterns);
    var k :| 0 <= k < |patterns| && Contains(id, patterns[k]);
    ContainsTransitive(id, patterns[k], "react");
  }


  /** The five characters `r`, `e`, `a`, `c`, `t` from index `i` on make `p` contain `'react'`. */
  lemma ReactAt(p: string, i: nat)
    requires i + 5 <= |p|
    requires p[i] == 'r' && p[i + 1] == 'e' && p[i + 2] == 'a' && p[i + 3] == 'c' && p[i + 4] == 't'
    ensures Contains(p, "react")
  {
    assert p[i..i + 5] == "react";
    OccursAtContains(p, "react", i);
  }

  /** Every pattern of the first group has `'react'` inside it. */
  lemma ReactPatternsMentionReact()
    ensures forall k :: 0 <= k < |ReactPatterns| ==> Contains(ReactPatterns[k], "react")
  {
    ReactAt("react", 0);
    ReactAt("react-dom", 0);
  }

  /** Every TanStack pattern has `'react'` right after `@tanstack/`. */
  lemma TanstackPatternsMentionReact()
    ensures forall k :: 0 <= k < |TanstackPatterns| ==> Contains(TanstackPatterns[k], "react")
  {
    ReactAt("@tanstack/react-query", 10);
    ReactAt("@tanstack/react-router", 10);
    ReactAt("@tanstack/react-table", 10);
  }

  /** Every Radix pattern has `'react'` right after `@radix-ui/`. */
  lemma UiPatternsMentionReact()
    ensures forall k :: 0 <= k < |UiPatterns| ==> Contains(UiPatterns[k], "react")
  {
    ReactAt("@radix-ui/react-alert-dialog", 10);
    ReactAt("@radix-ui/react-avatar", 10);
    ReactAt("@radix-ui/react-dropdown-menu", 10);
    ReactAt("@radix-ui/react-separator", 10);
    ReactAt("@radix-ui/react-slot", 10);
    ReactAt("@radix-ui/react-switch", 10);
  }

  /** Any id containing `'react'` goes to the React chunk. */
  lemma ReactIdIsReactVendor(id: string)
    requires Contains(id, "react")
    ensures ManualChunks(id) == Some(ReactVendor)
  {
  }

  /** The TanStack chunk is never produced: each of its patterns already matches the first test. */
  lemma TanstackVendorUnreachable(id: string)
    ensures ManualChunks(id) != Some(TanstackVendor)
  {
    TanstackPatternsMentionReact();
    if ContainsAny(id, TanstackPatterns) {
      GroupImpliesReact(id, TanstackPatterns);
    }
  }

  /** The UI chunk is never produced, for the same reason. */
  lemma UiVendorUnreachable(id: string)
    ensures ManualChunks(id) != Some(UiVendor)
  {
    UiPatternsMentionReact();
    if ContainsAny(id, UiPatterns) {
      GroupImpliesReact(id, UiPatterns);
    }
  }

  /** `lucide-react` is listed with the utilities but lands in the React chunk. */
  lemma LucideIsReactVendor(id: string)
    requires Contains(id, "lucide-react")
    ensures ManualChunks(id) == Some(ReactVendor)
  {
    ReactAt("lucide-react", 7);
    ContainsTransitive(id, "lucide-react", "react");
  }

  /** The four-group chain agrees with the two-test reduction on every id. */
  lemma ManualChunksReduces(id: string)
    ensures ManualChunks(id) == Reduced(id)
  {
    ReactPatternsMentionReact();
    TanstackPatternsMentionReact();
    UiPatternsMentionReact();
    if ContainsAny(id, ReactPatterns) {
      GroupImpliesReact(id, ReactPatterns);
    } else if !Contains(id, "react") {
      if ContainsAny(id, TanstackPatterns) {
        GroupImpliesReact(id, TanstackPatterns);
      }
      if ContainsAny(id, UiPatterns) {
        GroupImpliesReact(id, UiPatterns);
      }
      if Contains(id, "lucide-react") {
        ReactAt("lucide-react", 7);
        ContainsTransitive(id, "lucide-react", "react");
      }
    }
  }

  /** An id naming `axios`, `zod` or `date-fns` and not `'react'` goes to the utilities chunk. */
  lemma UtilityIdIsUtilsVendor(id: string)
    requires !Contains(id, "react")
    requires Contains(id, "axios") || Contains(id, "zod") || Contains(id, "date-fns")
    ensures ManualChunks(id) == Some(UtilsVendor)
  {
    ManualChunksReduces(id);
  }

  /** An id without `'react'`, `axios`, `zod` or `date-fns` gets no manual chunk. */
  lemma UnmatchedIdHasNoChunk(id: string)
    ensures ManualChunks(id).None? <==>
      !Contains(id, "react") && !Contains(id, "axios") && !Contains(id, "zod") && !Contains(id, "date-fns")
  {
    ManualChunksReduces(id);
  }
}
