/**
 * `generate_objects_from_prompt` in app.py: the names of the library
 * entries whose keyword occurs in the lower-cased prompt, in library order,
 * or a single cube at the origin when none does. Random positions are not
 * modelled as numbers: `Scattered` stands for `[uniform(-1, 1), 0, uniform(-1, 1)]`.
 */
module Scene {

  datatype Position = Scattered | Origin

  datatype SceneObject = SceneObject(name: string, position: Position, rotation: seq<int>)

  const NoRotation: seq<int> := [0, 0, 0]

  const Fallback := SceneObject("cube", Origin, NoRotation)

  /** `object_library`, keyword to object name, in the dict's insertion order. */
  const Library: seq<(string, string)> := [
    ("plant", "pottedplant"),
    ("tree", "pottedplant"),
    ("vase", "vase"),
    ("chair", "chair"),
    ("table", "table"),
    ("lamp", "lamp"),
    ("sofa", "sofa"),
    ("carpet", "carpet"),
    ("stage", "stage"),
    ("wedding", "wedding")
  ]

  function LowerChar(c: char): char {
    if 'A' <= c <= 'Z' then (c as int + ('a' as int - 'A' as int)) as char else c
  }

  predicate IsLower(s: string) {
    forall i | 0 <= i < |s| :: LowerChar(s[i]) == s[i]
  }

  /** `str.lower()`, restricted to ASCII letters. */
  function Lower(s: string): (r: string)
    ensures |r| == |s|
    ensures forall i | 0 <= i < |s| :: r[i] == LowerChar(s[i])
    ensures IsLower(r)
  {
    if s == [] then [] else [LowerChar(s[0])] + Lower(s[1..])
  }

  /** Lower-casing twice is lower-casing once. */
  lemma LowerIdempotent(s: string)
    ensures Lower(Lower(s)) == Lower(s)
  {
  }

  predicate OccursAt(s: string, key: string, i: nat) {
    i + |key| <= |s| && s[i..i + |key|] == key
  }

  /** `key in s[from:]` for Python strings (the empty key occurs everywhere). */
  function OccursFrom(s: string, key: string, from: nat): (r: bool)
    requires from <= |s|
    ensures r <==> exists i :: from <= i && OccursAt(s, key, i)
    decreases |s| - from
  {
    if from + |key| > |s| then
      assert forall i :: from <= i ==> !OccursAt(s, key, i);
      false
    else if s[from..from + |key|] == key then
      assert OccursAt(s, key, from);
      true
    else
      OccursFrom(s, key, from + 1)
  }

  /** Python's substring test `key in s`. */
  function Contains(s: string, key: string): (r: bool)
    ensures r <==> exists i :: OccursAt(s, key, i)
  {
    OccursFrom(s, key, 0)
  }

  /** The names of the entries of `lib` whose keyword occurs in `prompt`, in order. */
  function MatchedNames(lib: seq<(string, string)>, prompt: string): (names: seq<string>)
    ensures |names| <= |lib|
  {
    if lib == [] then []
    else (if Contains(prompt, lib[0].0) then [lib[0].1] else []) + MatchedNames(lib[1..], prompt)
  }

  /** Matching distributes over a split of the library, so library order is kept. */
  lemma {:induction false} MatchedNamesConcat(a: seq<(string, string)>, b: seq<(string, string)>, prompt: string)
    ensures MatchedNames(a + b, prompt) == MatchedNames(a, prompt) + MatchedNames(b, prompt)
  {
    if a == [] {
      assert a + b == b;
    } else {
      assert (a + b)[1..] == a[1..] + b;
      MatchedNamesConcat(a[1..], b, prompt);
    }
  }

  /** A name is produced exactly when some entry carrying it has a keyword occurring in the prompt. */
  lemma {:induction false} MatchedNamesMember(lib: seq<(string, string)>, prompt: string, name: string)
    ensures name in MatchedNames(lib, prompt) <==>
      exists i :: 0 <= i < |lib| && lib[i].1 == name && Contains(prompt, lib[i].0)
  {
    if lib != [] {
      MatchedNamesMember(lib[1..], prompt, name);
      if name in MatchedNames(lib[1..], prompt) {
        var i :| 0 <= i < |lib[1..]| && lib[1..][i].1 == name && Contains(prompt, lib[1..][i].0);
        assert lib[i + 1] == lib[1..][i];
      }
      if exists i :: 0 <= i < |lib| && lib[i].1 == name && Contains(prompt, lib[i].0) {
        var i :| 0 <= i < |lib| && lib[i].1 == name && Contains(prompt, lib[i].0);
        if i > 0 {
          assert lib[1..][i - 1] == lib[i];
        }
      }
    }
  }

  /** No name is produced exactly when no keyword of `lib` occurs in the prompt. */
  lemma {:induction false} MatchedNamesEmpty(lib: seq<(string, string)>, prompt: string)
    ensures MatchedNames(lib, prompt) == [] <==> forall i | 0 <= i < |lib| :: !Contains(prompt, lib[i].0)
  {
    if lib != [] {
      MatchedNamesEmpty(lib[1..], prompt);
      assert forall i | 0 <= i < |lib[1..]| :: lib[1..][i] == lib[i + 1];
      if forall i | 1 <= i < |lib| :: !Contains(prompt, lib[i].0) {
        assert forall i | 0 <= i < |lib[1..]| :: !Contains(prompt, lib[1..][i].0);
      }
    }
  }

  /** One name per matching entry: never more names than entries. */
  lemma {:induction false} MatchedNamesBound(lib: seq<(string, string)>, prompt: string)
    ensures (forall i | 0 <= i < |lib| :: Contains(prompt, lib[i].0)) ==> |MatchedNames(lib, prompt)| == |lib|
  {
    if lib != [] {
      MatchedNamesBound(lib[1..], prompt);
      if forall i | 0 <= i < |lib| :: Contains(prompt, lib[i].0) {
        assert Contains(prompt, lib[0].0);
        assert forall i | 0 <= i < |lib[1..]| :: lib[1..][i] == lib[i + 1];
      }
    }
  }

  /** The names `generate_objects_from_prompt` returns. */
  function ObjectNames(prompt: string): (names: seq<string>)
    ensures |names| >= 1
  {
    var matched := MatchedNames(Library, Lower(prompt));
    if matched == [] then ["cube"] else matched
  }

  /** The cube is the answer exactly when no keyword occurs in the lower-cased prompt. */
  lemma FallbackIffNoKeyword(prompt: string)
    ensures ObjectNames(prompt) == ["cube"] <==>
      forall i | 0 <= i < |Library| :: !Contains(Lower(prompt), Library[i].0)
  {
    var p := Lower(prompt);
    MatchedNamesEmpty(Library, p);
    MatchedNamesMember(Library, p, "cube");
    assert forall i | 0 <= i < |Library| :: Library[i].1 != "cube";
    assert "cube" !in MatchedNames(Library, p);
  }

  /** "plant" and "tree" both place a potted plant, and nothing else does. */
  lemma PottedPlantKeywords(prompt: string)
    ensures "pottedplant" in ObjectNames(prompt) <==>
      Contains(Lower(prompt), "plant") || Contains(Lower(prompt), "tree")
  {
    var p := Lower(prompt);
    MatchedNamesMember(Library, p, "pottedplant");
    assert Library[0] == ("plant", "pottedplant") && Library[1] == ("tree", "pottedplant");
    assert forall i | 2 <= i < |Library| :: Library[i].1 != "pottedplant";
  }

  /** Matching ignores letter case: the prompt is lower-cased and every keyword is lower case. */
  lemma CaseInsensitive(prompt: string)
    ensures ObjectNames(Lower(prompt)) == ObjectNames(prompt)
  {
    LowerIdempotent(prompt);
  }

  function Names(objects: seq<SceneObject>): (names: seq<string>)
    ensures |names| == |objects|
    ensures forall i | 0 <= i < |objects| :: names[i] == objects[i].name
  {
    if objects == [] then [] else [objects[0].name] + Names(objects[1..])
  }

  /** The objects placed for the given names. */
  function Placed(names: seq<string>): (objects: seq<SceneObject>)
    ensures |objects| == |names|
    ensures forall i | 0 <= i < |names| :: objects[i] == SceneObject(names[i], Scattered, NoRotation)
  {
    if names == [] then [] else [SceneObject(names[0], Scattered, NoRotation)] + Placed(names[1..])
  }

  /**
   * `generate_objects_from_prompt`: one scattered object per library entry
   * whose keyword occurs in the lower-cased prompt, in library order; when
   * there is none, exactly one cube at the origin. Never empty.
   */
  method GenerateObjects(prompt: string) returns (objects: seq<SceneObject>)
    ensures |objects| >= 1 && Names(objects) == ObjectNames(prompt)
    ensures MatchedNames(Library, Lower(prompt)) == [] ==> objects == [Fallback]
    ensures MatchedNames(Library, Lower(prompt)) != [] ==> objects == Placed(MatchedNames(Library, Lower(prompt)))
  {
    var lowered := Lower(prompt);
    objects := [];
    for k := 0 to |Library|
      invariant objects == Placed(MatchedNames(Library[..k], lowered))
    {
      var (keyword, name) := Library[k];
      MatchedNamesConcat(Library[..k], [Library[k]], lowered);
      assert Library[..k + 1] == Library[..k] + [Library[k]];
      if Contains(lowered, keyword) {
        objects := objects + [SceneObject(name, Scattered, NoRotation)];
      }
    }
    assert Library[..|Library|] == Library;
    if objects == [] {
      objects := objects + [Fallback];
    }
  }
}
