/** The front end's permission predicates, read from the stored permission
    list: one code is held, or at least one of several codes is held. The
    second is an any-of test, unlike the back end's all-of gate. */
module PermissionHooks {
  import opened Authorization

  /** `usePermission(code)`: `permissions.includes(code)`. */
  function HasPermission(held: seq<string>, code: string): (b: bool)
    ensures b <==> exists i :: 0 <= i < |held| && held[i] == code
  {
    code in held
  }

  /** `useHasAnyPermission(...codes)`: `codes.some((c) => permissions.includes(c))`. */
  function HasAnyPermission(held: seq<string>, codes: seq<string>): (b: bool)
    ensures b <==> exists i :: 0 <= i < |codes| && codes[i] in held
  {
    if |codes| == 0 then false
    else
      var rest := HasAnyPermission(held, codes[1..]);
      assert rest <==> exists i :: 1 <= i < |codes| && codes[i] in held by {
        if exists i :: 1 <= i < |codes| && codes[i] in held {
          var i :| 1 <= i < |codes| && codes[i] in held;
          assert codes[1..][i - 1] == codes[i];
        }
      }
      codes[0] in held || rest
  }

  /** No codes are never satisfied; a held code makes any list containing it
      satisfied. */
  lemma AnyOfBasics(held: seq<string>, codes: seq<string>, code: string)
    ensures !HasAnyPermission(held, [])
    ensures HasPermission(held, code) && code in codes ==> HasAnyPermission(held, codes)
  {
    if HasPermission(held, code) && code in codes {
      var i :| 0 <= i < |codes| && codes[i] == code;
    }
  }

  /** Any-of is weaker than the server's all-of: a non-empty requirement the
      server grants is shown by the front end, but not conversely. */
  lemma AnyOfWeakerThanAllOf(held: seq<string>, codes: seq<string>)
    ensures |codes| > 0 && HoldsAll(codes, held) ==> HasAnyPermission(held, codes)
    ensures HasAnyPermission(["ar.view"], ["ar.view", "ar.create"])
    ensures !HoldsAll(["ar.view", "ar.create"], ["ar.view"])
  {
    if |codes| > 0 && HoldsAll(codes, held) {
      assert codes[0] in held;
    }
    var two := ["ar.view", "ar.create"];
    assert two[0] in ["ar.view"];
    assert two[1] !in ["ar.view"];
  }
}
