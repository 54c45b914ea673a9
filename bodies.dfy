/**
 * Request bodies built from whitelisted keyword arguments, as the settings
 * update and the issue filters of snyk/managers.py build them: a loop over
 * a fixed list of names that copies each chosen argument into a dict.
 */
module Bodies {
  import opened Json

  /**
   * Whether the argument `name` is copied: when it is present, or, with
   * `byTruth`, when it is present and truthy.
   */
  predicate Picks(kwargs: seq<Entry>, name: string, byTruth: bool) {
    HasKey(kwargs, name) && (byTruth ==> Truthy(Lookup(kwargs, name).value))
  }

  /** `base` after `base[rename(n)] = kwargs[n]` for each picked name `n` of `names`, in order. */
  function Whitelisted(base: seq<Entry>, names: seq<string>, kwargs: seq<Entry>, rename: string -> string, byTruth: bool)
    : seq<Entry>
    decreases |names|
  {
    if names == [] then base
    else
      var before := Whitelisted(base, names[..|names| - 1], kwargs, rename, byTruth);
      var n := names[|names| - 1];
      if Picks(kwargs, n, byTruth) then Put(before, rename(n), Lookup(kwargs, n).value) else before
  }

  /** The loop that copies the whitelisted arguments. */
  method Whitelist(base: seq<Entry>, names: seq<string>, kwargs: seq<Entry>, rename: string -> string, byTruth: bool)
    returns (body: seq<Entry>)
    ensures body == Whitelisted(base, names, kwargs, rename, byTruth)
  {
    body := base;
    for i := 0 to |names|
      invariant body == Whitelisted(base, names[..i], kwargs, rename, byTruth)
    {
      assert names[..i + 1][..i] == names[..i];
      if Picks(kwargs, names[i], byTruth) {
        body := Put(body, rename(names[i]), Lookup(kwargs, names[i]).value);
      }
    }
    assert names[..|names|] == names;
  }

  /** No two names are renamed to the same key. */
  predicate Injective(rename: string -> string, names: seq<string>) {
    forall i, j :: 0 <= i < j < |names| ==> rename(names[i]) != rename(names[j])
  }

  /** A key that no name is renamed to keeps its value from `base`. */
  lemma {:induction false} WhitelistedOthers(base: seq<Entry>, names: seq<string>, kwargs: seq<Entry>, rename: string -> string, byTruth: bool, k: string)
    requires forall i :: 0 <= i < |names| ==> rename(names[i]) != k
    ensures Lookup(Whitelisted(base, names, kwargs, rename, byTruth), k) == Lookup(base, k)
    decreases |names|
  {
    if names != [] {
      WhitelistedOthers(base, names[..|names| - 1], kwargs, rename, byTruth, k);
    }
  }

  /**
   * The key of a name holds the argument when it was picked and otherwise
   * its value from `base`, provided no other name is renamed to it.
   */
  lemma {:induction false} WhitelistedPicked(base: seq<Entry>, names: seq<string>, kwargs: seq<Entry>, rename: string -> string, byTruth: bool, i: nat)
    requires i < |names| && Injective(rename, names)
    ensures Lookup(Whitelisted(base, names, kwargs, rename, byTruth), rename(names[i]))
            == if Picks(kwargs, names[i], byTruth) then Lookup(kwargs, names[i]) else Lookup(base, rename(names[i]))
    decreases |names|
  {
    var front := names[..|names| - 1];
    if i < |names| - 1 {
      assert front[i] == names[i];
      assert Injective(rename, front) by {
        forall a, b | 0 <= a < b < |front|
          ensures rename(front[a]) != rename(front[b])
        {
          assert front[a] == names[a] && front[b] == names[b];
        }
      }
      WhitelistedPicked(base, front, kwargs, rename, byTruth, i);
    } else {
      assert forall j :: 0 <= j < |front| ==> front[j] == names[j];
      WhitelistedOthers(base, front, kwargs, rename, byTruth, rename(names[i]));
    }
  }

  /** When every name is renamed to a key `base` already has, the keys and their order stay those of `base`. */
  lemma {:induction false} WhitelistedKeys(base: seq<Entry>, names: seq<string>, kwargs: seq<Entry>, rename: string -> string, byTruth: bool)
    requires forall i :: 0 <= i < |names| ==> HasKey(base, rename(names[i]))
    ensures Keys(Whitelisted(base, names, kwargs, rename, byTruth)) == Keys(base)
    decreases |names|
  {
    if names != [] {
      var front := names[..|names| - 1];
      assert forall j :: 0 <= j < |front| ==> front[j] == names[j];
      WhitelistedKeys(base, front, kwargs, rename, byTruth);
    }
  }

  /** Arguments outside the whitelist change nothing. */
  lemma {:induction false} WhitelistedIgnores(base: seq<Entry>, names: seq<string>, kwargs: seq<Entry>, other: seq<Entry>, rename: string -> string, byTruth: bool)
    requires forall i :: 0 <= i < |names| ==> Lookup(kwargs, names[i]) == Lookup(other, names[i])
    ensures Whitelisted(base, names, kwargs, rename, byTruth) == Whitelisted(base, names, other, rename, byTruth)
    decreases |names|
  {
    if names != [] {
      var front := names[..|names| - 1];
      assert forall j :: 0 <= j < |front| ==> front[j] == names[j];
      WhitelistedIgnores(base, front, kwargs, other, rename, byTruth);
      var n := names[|names| - 1];
      assert HasKey(kwargs, n) == HasKey(other, n) by {
        assert Lookup(kwargs, n) == Lookup(other, n);
      }
    }
  }
}
