/**
 * index1.js `launch(opts)`: the in-place editing of `opts.args` by the local
 * helper `addToArgs`, followed by forcing `headless = false`. The call into
 * `puppeteerCore.launch` itself is an external step.
 */
module Launch {
  import opened Common

  const EXTENSION_ID := "bepmaejckfhbdbikphclmnmclpiheche"
  const LOAD_EXTENSION := "--load-extension="
  const DISABLE_OTHER_EXTENSIONS := "--disable-extensions-except="
  const ALLOWLISTED_EXTENSION := "--allowlisted-extension-id="
  const AUTOPLAY := "--autoplay-policy=no-user-gesture-required"

  /** JavaScript's `s.includes(sub)` on strings. */
  predicate Contains(s: string, sub: string)
    decreases |s|
  {
    sub <= s || (|s| > 0 && Contains(s[1..], sub))
  }

  /** Some argument contains `sub`. */
  predicate SomeArgContains(args: seq<string>, sub: string) {
    exists i :: 0 <= i < |args| && Contains(args[i], sub)
  }

  /** The `opts.args.map(...)` step: every argument containing `arg` gets `,value` appended. */
  function Extended(args: seq<string>, arg: string, value: string): (r: seq<string>)
    ensures |r| == |args|
  {
    if args == [] then []
    else
      var last := args[|args| - 1];
      Extended(args[..|args| - 1], arg, value) + [if Contains(last, arg) then last + "," + value else last]
  }

  /**
   * What `addToArgs(arg, value)` leaves in `opts.args`; an empty `value`
   * stands for the falsy values `undefined` and `""`.
   */
  function AddedArgs(args: seq<string>, arg: string, value: string): seq<string> {
    if value == "" then
      if arg in args then args else args + [arg]
    else if SomeArgContains(args, arg) then Extended(args, arg, value)
    else Extended(args, arg, value) + [arg + value]
  }

  /** The argument list `launch` hands to the browser, from the caller's list. */
  function LaunchArgs(args: seq<string>, extensionPath: string): seq<string> {
    var a1 := AddedArgs(args, LOAD_EXTENSION, extensionPath);
    var a2 := AddedArgs(a1, DISABLE_OTHER_EXTENSIONS, extensionPath);
    var a3 := AddedArgs(a2, ALLOWLISTED_EXTENSION, EXTENSION_ID);
    AddedArgs(a3, AUTOPLAY, "")
  }

  /** The four flags `launch` always adds are present. */
  predicate HasLaunchFlags(args: seq<string>) {
    && SomeArgContains(args, LOAD_EXTENSION)
    && SomeArgContains(args, DISABLE_OTHER_EXTENSIONS)
    && SomeArgContains(args, ALLOWLISTED_EXTENSION)
    && AUTOPLAY in args
  }

  lemma {:induction false} ContainsSelf(s: string)
    ensures Contains(s, s)
  {
  }

  lemma {:induction false} ContainsExtend(s: string, sub: string, t: string)
    requires Contains(s, sub)
    ensures Contains(s + t, sub)
    decreases |s|
  {
    if sub <= s {
      assert (s + t)[..|sub|] == s[..|sub|];
    } else {
      assert (s + t)[1..] == s[1..] + t;
      ContainsExtend(s[1..], sub, t);
    }
  }

  lemma {:induction false} ExtendedAt(args: seq<string>, arg: string, value: string, i: nat)
    requires i < |args|
    ensures Extended(args, arg, value)[i] ==
              if Contains(args[i], arg) then args[i] + "," + value else args[i]
    decreases |args|
  {
    if i < |args| - 1 {
      ExtendedAt(args[..|args| - 1], arg, value, i);
    }
  }

  /**
   * With no value, `addToArgs` pushes `arg` only when it is not already an
   * element, so repeating the call changes nothing.
   */
  lemma {:induction false} AddWithoutValueIdempotent(args: seq<string>, arg: string)
    ensures arg in AddedArgs(args, arg, "")
    ensures AddedArgs(AddedArgs(args, arg, ""), arg, "") == AddedArgs(args, arg, "")
    ensures arg in args ==> AddedArgs(args, arg, "") == args
    ensures arg !in args ==> AddedArgs(args, arg, "") == args + [arg]
  {
  }

  /**
   * With a value, every element containing `arg` gets `,value` appended, every
   * other element is unchanged, and `arg + value` is pushed only when no
   * element matched.
   */
  lemma {:induction false} AddWithValue(args: seq<string>, arg: string, value: string)
    requires value != ""
    ensures var r := AddedArgs(args, arg, value);
      && |r| == |args| + (if SomeArgContains(args, arg) then 0 else 1)
      && (forall i :: 0 <= i < |args| ==>
            r[i] == if Contains(args[i], arg) then args[i] + "," + value else args[i])
      && (!SomeArgContains(args, arg) ==> r[|args|] == arg + value)
  {
    var r := AddedArgs(args, arg, value);
    forall i | 0 <= i < |args|
      ensures r[i] == if Contains(args[i], arg) then args[i] + "," + value else args[i]
    {
      ExtendedAt(args, arg, value, i);
    }
  }

  /** `addToArgs` only ever lengthens the list and extends elements at their end. */
  lemma {:induction false} AddedArgsExtends(args: seq<string>, arg: string, value: string)
    ensures var r := AddedArgs(args, arg, value);
      |args| <= |r| && forall i :: 0 <= i < |args| ==> args[i] <= r[i]
  {
    if value != "" {
      AddWithValue(args, arg, value);
    }
  }

  /** After `addToArgs(arg, value)` some element contains `arg`. */
  lemma {:induction false} AddedArgsContains(args: seq<string>, arg: string, value: string)
    ensures SomeArgContains(AddedArgs(args, arg, value), arg)
  {
    var r := AddedArgs(args, arg, value);
    if value == "" {
      AddWithoutValueIdempotent(args, arg);
      var i :| 0 <= i < |r| && r[i] == arg;
      ContainsSelf(arg);
    } else if SomeArgContains(args, arg) {
      var i :| 0 <= i < |args| && Contains(args[i], arg);
      AddWithValue(args, arg, value);
      ContainsExtend(args[i], arg, "," + value);
      assert args[i] + ("," + value) == args[i] + "," + value;
      assert Contains(r[i], arg);
    } else {
      AddWithValue(args, arg, value);
      ContainsSelf(arg);
      ContainsExtend(arg, arg, value);
      assert Contains(r[|args|], arg);
    }
  }

  /** A later `addToArgs` keeps every flag an earlier one established. */
  lemma {:induction false} AddedArgsKeeps(args: seq<string>, sub: string, arg: string, value: string)
    requires SomeArgContains(args, sub)
    ensures SomeArgContains(AddedArgs(args, arg, value), sub)
  {
    var r := AddedArgs(args, arg, value);
    var i :| 0 <= i < |args| && Contains(args[i], sub);
    AddedArgsExtends(args, arg, value);
    assert r[i] == args[i] + r[i][|args[i]|..];
    ContainsExtend(args[i], sub, r[i][|args[i]|..]);
  }

  /** `launch` always adds the four extension and autoplay flags, whatever the caller passed. */
  lemma {:induction false} LaunchAddsFlags(args: seq<string>, extensionPath: string)
    ensures HasLaunchFlags(LaunchArgs(args, extensionPath))
    ensures var r := LaunchArgs(args, extensionPath);
      |args| <= |r| && forall i :: 0 <= i < |args| ==> args[i] <= r[i]
  {
    var a1 := AddedArgs(args, LOAD_EXTENSION, extensionPath);
    var a2 := AddedArgs(a1, DISABLE_OTHER_EXTENSIONS, extensionPath);
    var a3 := AddedArgs(a2, ALLOWLISTED_EXTENSION, EXTENSION_ID);
    var a4 := AddedArgs(a3, AUTOPLAY, "");
    AddedArgsContains(args, LOAD_EXTENSION, extensionPath);
    AddedArgsKeeps(a1, LOAD_EXTENSION, DISABLE_OTHER_EXTENSIONS, extensionPath);
    AddedArgsKeeps(a2, LOAD_EXTENSION, ALLOWLISTED_EXTENSION, EXTENSION_ID);
    AddedArgsKeeps(a3, LOAD_EXTENSION, AUTOPLAY, "");
    AddedArgsContains(a1, DISABLE_OTHER_EXTENSIONS, extensionPath);
    AddedArgsKeeps(a2, DISABLE_OTHER_EXTENSIONS, ALLOWLISTED_EXTENSION, EXTENSION_ID);
    AddedArgsKeeps(a3, DISABLE_OTHER_EXTENSIONS, AUTOPLAY, "");
    AddedArgsContains(a2, ALLOWLISTED_EXTENSION, EXTENSION_ID);
    AddedArgsKeeps(a3, ALLOWLISTED_EXTENSION, AUTOPLAY, "");
    AddWithoutValueIdempotent(a3, AUTOPLAY);
    AddedArgsExtends(args, LOAD_EXTENSION, extensionPath);
    AddedArgsExtends(a1, DISABLE_OTHER_EXTENSIONS, extensionPath);
    AddedArgsExtends(a2, ALLOWLISTED_EXTENSION, EXTENSION_ID);
    AddedArgsExtends(a3, AUTOPLAY, "");
    forall i | 0 <= i < |args| ensures args[i] <= a4[i] {
      assert args[i] <= a1[i] <= a2[i] <= a3[i] <= a4[i];
    }
  }

  /** The options object `launch(opts)` receives and edits in place. */
  class LaunchOptions {
    var args: Option<seq<string>>
    var headless: Option<bool>

    constructor (args: Option<seq<string>>, headless: Option<bool>)
      ensures this.args == args && this.headless == headless
    {
      this.args := args;
      this.headless := headless;
    }

    /** `addToArgs(arg, value)`: rewrites `opts.args` or pushes onto it. */
    method AddToArgs(arg: string, value: string)
      requires args.Some?
      modifies this
      ensures args == Some(AddedArgs(old(args.value), arg, value))
      ensures headless == old(headless)
    {
      var current := args.value;
      if value == "" {
        if arg in current {
          return;
        }
        args := Some(current + [arg]);
        return;
      }
      var found := false;
      var mapped := [];
      var i := 0;
      while i < |current|
        invariant 0 <= i <= |current|
        invariant mapped == Extended(current[..i], arg, value)
        invariant found <==> SomeArgContains(current[..i], arg)
      {
        var x := current[i];
        assert current[..i + 1][..i] == current[..i];
        if Contains(x, arg) {
          found := true;
          mapped := mapped + [x + "," + value];
        } else {
          mapped := mapped + [x];
        }
        assert SomeArgContains(current[..i + 1], arg) <==> SomeArgContains(current[..i], arg) || Contains(x, arg);
        i := i + 1;
      }
      assert current[..i] == current;
      args := Some(mapped);
      if !found {
        args := Some(mapped + [arg + value]);
      }
    }

    /** The option edits of `launch(opts)` before the browser is started. */
    method PrepareLaunch(extensionPath: string)
      modifies this
      ensures args == Some(LaunchArgs(if old(args).Some? then old(args).value else [], extensionPath))
      ensures HasLaunchFlags(args.value)
      ensures headless == Some(false)
    {
      if args.None? {
        args := Some([]);
      }
      ghost var given := args.value;
      AddToArgs(LOAD_EXTENSION, extensionPath);
      AddToArgs(DISABLE_OTHER_EXTENSIONS, extensionPath);
      AddToArgs(ALLOWLISTED_EXTENSION, EXTENSION_ID);
      AddToArgs(AUTOPLAY, "");
      LaunchAddsFlags(given, extensionPath);
      headless := Some(false);
    }
  }
}
