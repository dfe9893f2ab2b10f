/**
 The bidirectional key map: a fixed forward table from the names scripts use
 ("up", "down", ...) to native key codes, and a reverse table from code to
 name, built from the forward one by a loop over its entries.
 */
module KeyMap {

  /** A native key code (an `sf::Keyboard::Key` enumerator). */
  type KeyCode = int

  // The enumerator values of SFML 2's arrow keys.
  const LeftKey: KeyCode := 71
  const RightKey: KeyCode := 72
  const UpKey: KeyCode := 73
  const DownKey: KeyCode := 74

  /** The forward table the bridge installs. */
  function DefaultKeymap(): (fwd: map<string, KeyCode>)
    ensures fwd.Keys == {"up", "down", "left", "right"}
    ensures Injective(fwd)
  {
    map["up" := UpKey, "down" := DownKey, "left" := LeftKey, "right" := RightKey]
  }

  /** No two names share a code. */
  ghost predicate Injective(fwd: map<string, KeyCode>)
  {
    forall a, b :: a in fwd && b in fwd && a != b ==> fwd[a] != fwd[b]
  }

  /** `rev` is the exact inverse of `fwd`: every pair appears in both directions. */
  ghost predicate IsInverse(fwd: map<string, KeyCode>, rev: map<KeyCode, string>)
  {
    && (forall name :: name in fwd ==> fwd[name] in rev && rev[fwd[name]] == name)
    && (forall code :: code in rev ==> rev[code] in fwd && fwd[rev[code]] == code)
  }

  /** The codes of the given names. */
  ghost function Image(fwd: map<string, KeyCode>, names: set<string>): set<KeyCode>
    requires names <= fwd.Keys
  {
    set name | name in names :: fwd[name]
  }

  /** Writes `rev[fwd[name]] := name` for every entry of `fwd`, starting from
      `rev0`. The entries are taken in an arbitrary order, so what is proved
      holds for whatever order the forward table is iterated in. */
  method ExtendReverse(fwd: map<string, KeyCode>, rev0: map<KeyCode, string>) returns (rev: map<KeyCode, string>)
    ensures rev.Keys == rev0.Keys + fwd.Values
    ensures forall code :: code in fwd.Values ==> rev[code] in fwd && fwd[rev[code]] == code
    ensures forall code :: code in rev0 && code !in fwd.Values ==> rev[code] == rev0[code]
  {
    rev := rev0;
    var todo := fwd.Keys;
    ghost var done: set<string> := {};
    while todo != {}
      invariant todo + done == fwd.Keys && todo !! done
      invariant rev.Keys == rev0.Keys + Image(fwd, done)
      invariant forall code :: code in Image(fwd, done) ==> rev[code] in fwd && fwd[rev[code]] == code
      invariant forall code :: code in rev0 && code !in Image(fwd, done) ==> rev[code] == rev0[code]
      decreases todo
    {
      var name :| name in todo;
      rev := rev[fwd[name] := name];
      todo := todo - {name};
      done := done + {name};
    }
    assert Image(fwd, done) == fwd.Values by {
      forall code | code in fwd.Values ensures code in Image(fwd, done) {
        var name :| name in fwd && fwd[name] == code;
      }
    }
  }

  /** When the forward table is injective, a reverse table over exactly its codes
      whose every entry points back into it is its exact inverse. */
  lemma InjectiveReverseIsInverse(fwd: map<string, KeyCode>, rev: map<KeyCode, string>)
    requires Injective(fwd)
    requires rev.Keys == fwd.Values
    requires forall code :: code in fwd.Values ==> rev[code] in fwd && fwd[rev[code]] == code
    ensures IsInverse(fwd, rev)
  {
    forall name | name in fwd ensures fwd[name] in rev && rev[fwd[name]] == name {
      var code := fwd[name];
      assert code in fwd.Values;
      var other := rev[code];
      assert fwd[other] == code;
    }
  }
}
