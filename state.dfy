/**
 * The state pattern: a text editor whose current mode names one of three
 * string transforms, applied to whatever is typed. Case mapping is limited
 * to the ASCII letters.
 */
module TextEditor {
  import opened Wrappers

  /** `toUpperCase` on one ASCII character. */
  function UpperChar(c: char): (u: char)
    ensures 'a' <= c <= 'z' ==> u as int == c as int - 32
    ensures !('a' <= c <= 'z') ==> u == c
    ensures !('a' <= u <= 'z')
  {
    if 'a' <= c <= 'z' then (c as int - 32) as char else c
  }

  /** `toLowerCase` on one ASCII character. */
  function LowerChar(c: char): (l: char)
    ensures 'A' <= c <= 'Z' ==> l as int == c as int + 32
    ensures !('A' <= c <= 'Z') ==> l == c
    ensures !('A' <= l <= 'Z')
  {
    if 'A' <= c <= 'Z' then (c as int + 32) as char else c
  }

  /** The `default` transform, `str => str`. */
  function Identity(s: string): (r: string)
    ensures r == s
  {
    s
  }

  /** The `upper` transform: every letter upper-cased, the length kept. */
  function Upper(s: string): (r: string)
    ensures |r| == |s|
    ensures forall i :: 0 <= i < |s| ==> r[i] == UpperChar(s[i])
  {
    seq(|s|, i requires 0 <= i < |s| => UpperChar(s[i]))
  }

  /** The `lower` transform: every letter lower-cased, the length kept. */
  function Lower(s: string): (r: string)
    ensures |r| == |s|
    ensures forall i :: 0 <= i < |s| ==> r[i] == LowerChar(s[i])
  {
    seq(|s|, i requires 0 <= i < |s| => LowerChar(s[i]))
  }

  /** Upper-casing twice is upper-casing once; so is lower-casing. */
  lemma CaseIdempotent(s: string)
    ensures Upper(Upper(s)) == Upper(s)
    ensures Lower(Lower(s)) == Lower(s)
  {
  }

  /** Each transform undoes what the other does to letters: after either,
      the other decides the result alone. */
  lemma CaseAbsorbs(s: string)
    ensures Upper(Lower(s)) == Upper(s)
    ensures Lower(Upper(s)) == Lower(s)
  {
  }

  /** What the demo types comes out as expected. */
  lemma DemoCases()
    ensures Upper("yelling") == "YELLING"
    ensures Lower("WhISPERING") == "whispering"
  {
  }

  /** `TEXT_EDITOR_TRANSFORMS`. */
  const Transforms: map<string, string -> string> :=
    map["default" := Identity, "upper" := Upper, "lower" := Lower]

  /** The table has exactly the three modes, and each names its transform. */
  lemma TransformTable()
    ensures Transforms.Keys == {"default", "upper", "lower"}
    ensures forall s :: Transforms["default"](s) == s
    ensures forall s :: Transforms["upper"](s) == Upper(s)
    ensures forall s :: Transforms["lower"](s) == Lower(s)
  {
  }

  /** The error `type` throws when the mode names no transform: looking it up
      gives `undefined`, which is not a function. */
  datatype EditorError = NotAFunction(mode: string)

  /** The `textEditor` object, its closure variable `transform` as a field. */
  class Editor {
    var transform: string

    /** The editor starts in mode `'default'`. */
    constructor ()
      ensures transform == "default"
    {
      transform := "default";
    }

    /** `setTransform(newTransform)`: any name is taken, unchecked, and the
        assignment's value is returned. */
    method SetTransform(newTransform: string) returns (r: string)
      modifies this
      ensures transform == newTransform
      ensures r == newTransform
    {
      transform := newTransform;
      r := transform;
    }

    /** `type(words)`: what the current transform makes of `words`, which is
        what gets printed; the mode is left alone. A mode outside the table
        makes the call throw. */
    method Type(words: string) returns (out: Result<string, EditorError>)
      ensures transform == "default" ==> out == Success(words)
      ensures transform == "upper" ==> out == Success(Upper(words))
      ensures transform == "lower" ==> out == Success(Lower(words))
      ensures transform !in {"default", "upper", "lower"} ==> out == Failure(NotAFunction(transform))
    {
      if transform in Transforms {
        out := Success(Transforms[transform](words));
      } else {
        out := Failure(NotAFunction(transform));
      }
    }
  }

  /** The demo: type in the default mode, then in `upper`, then in `lower`. */
  method EditorDemo() returns (printed: seq<Result<string, EditorError>>)
    ensures printed == [Success("boop"), Success("YELLING"), Success("whispering")]
  {
    var editor := new Editor();
    var boop := editor.Type("boop");
    var _ := editor.SetTransform("upper");
    var yelling := editor.Type("yelling");
    var _ := editor.SetTransform("lower");
    var whispering := editor.Type("WhISPERING");
    DemoCases();
    printed := [boop, yelling, whispering];
  }
}
