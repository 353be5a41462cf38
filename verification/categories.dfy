/** The category registry: the list loaded at start-up (`loadCategories`) and the registration of a
    new category (`addNewCategory`). */
module Categories {
  import opened Wrappers
  import opened Text

  /** The categories used when none have been stored. */
  const DefaultCategories: seq<string> :=
    ["Makanan", "Belanja", "Transportasi", "Bisnis", "Langganan", "Tagihan", "Hiburan", "Lainnya"]

  /** `loadCategories`: the stored list when there is one, otherwise the defaults. */
  function LoadCategories(stored: Option<seq<string>>): (r: seq<string>)
    ensures stored.Some? ==> r == stored.value
    ensures stored.None? ==> r == DefaultCategories
  {
    stored.GetOr(DefaultCategories)
  }

  /** No two entries are equal once lower-cased. */
  predicate UniqueIgnoringCase(cats: seq<string>) {
    forall i, j :: 0 <= i < j < |cats| ==> !EqualsIgnoringCase(cats[i], cats[j])
  }

  /** `categories.some(c => c.toLowerCase() === name.toLowerCase())`. */
  function HasIgnoringCase(cats: seq<string>, name: string): (b: bool)
    ensures b <==> exists c :: c in cats && EqualsIgnoringCase(c, name)
  {
    if cats == [] then false
    else EqualsIgnoringCase(cats[0], name) || HasIgnoringCase(cats[1..], name)
  }

  /** Why a registration was refused. */
  datatype CategoryError = EmptyName | DuplicateName

  /** `addNewCategory`: the trimmed name is appended, unless it is empty or already present in some casing. */
  function AddNewCategory(cats: seq<string>, input: string): (r: Result<seq<string>, CategoryError>)
    ensures Trim(input) == [] <==> r == Failure(EmptyName)
    ensures r == Failure(DuplicateName) <==>
      Trim(input) != [] && exists c :: c in cats && EqualsIgnoringCase(c, Trim(input))
    ensures r.Success? ==> r.value == cats + [Trim(input)]
  {
    var name := Trim(input);
    if name == [] then Failure(EmptyName)
    else if HasIgnoringCase(cats, name) then Failure(DuplicateName)
    else Success(cats + [name])
  }

  /** The registry after an attempted registration: unchanged when the attempt was refused. */
  function Registered(cats: seq<string>, input: string): seq<string> {
    AddNewCategory(cats, input).GetOr(cats)
  }

  /** A registration never removes or reorders earlier entries and adds at most one, at the end. */
  lemma RegistrationOnlyAppends(cats: seq<string>, input: string)
    ensures var r := Registered(cats, input);
      && (r == cats || r == cats + [Trim(input)])
      && r[..|cats|] == cats
  {
  }

  /** A registration keeps the registry free of case-insensitive duplicates, and afterwards a non-empty
      name is present in some casing. */
  lemma RegistrationKeepsUnique(cats: seq<string>, input: string)
    requires UniqueIgnoringCase(cats)
    ensures UniqueIgnoringCase(Registered(cats, input))
    ensures Trim(input) != [] ==> exists c :: c in Registered(cats, input) && EqualsIgnoringCase(c, Trim(input))
  {
    var name := Trim(input);
    var r := Registered(cats, input);
    if AddNewCategory(cats, input).Success? {
      assert r == cats + [name];
      assert r[|cats|] == name && name in r;
      forall i, j | 0 <= i < j < |r|
        ensures !EqualsIgnoringCase(r[i], r[j])
      {
        if j == |cats| {
          assert r[i] == cats[i] && cats[i] in cats;
        } else {
          assert r[i] == cats[i] && r[j] == cats[j];
        }
      }
    }
  }

  /** A run of registrations, in order. */
  function RegisterAll(cats: seq<string>, inputs: seq<string>): seq<string>
    decreases |inputs|
  {
    if inputs == [] then cats else RegisterAll(Registered(cats, inputs[0]), inputs[1..])
  }

  /** Two names that differ in length, or in their first letter once lower-cased, are different
      in every casing. */
  lemma DifferentIgnoringCase(a: string, b: string)
    requires |a| != |b| || (|a| > 0 && |b| > 0 && LowerChar(a[0]) != LowerChar(b[0]))
    ensures !EqualsIgnoringCase(a, b)
  {
    if |a| == |b| {
      assert Lower(a)[0] != Lower(b)[0];
    }
  }

  /** The default list has no case-insensitive duplicates. */
  lemma DefaultsUnique()
    ensures UniqueIgnoringCase(DefaultCategories)
  {
    var d := DefaultCategories;
    forall i, j | 0 <= i < j < |d|
      ensures !EqualsIgnoringCase(d[i], d[j])
    {
      DifferentIgnoringCase(d[i], d[j]);
    }
  }

  /** Any run of registrations keeps a case-insensitively unique list unique. */
  lemma {:induction false} RegistryStaysUnique(cats: seq<string>, inputs: seq<string>)
    requires UniqueIgnoringCase(cats)
    ensures UniqueIgnoringCase(RegisterAll(cats, inputs))
    decreases |inputs|
  {
    if inputs != [] {
      RegistrationKeepsUnique(cats, inputs[0]);
      RegistryStaysUnique(Registered(cats, inputs[0]), inputs[1..]);
    }
  }

  /** Starting from the defaults, any run of registrations leaves the list case-insensitively unique. */
  lemma DefaultRegistryStaysUnique(inputs: seq<string>)
    ensures UniqueIgnoringCase(RegisterAll(LoadCategories(None), inputs))
  {
    DefaultsUnique();
    RegistryStaysUnique(DefaultCategories, inputs);
  }

  lemma TrimmedExample()
    ensures Trim(" mAKANAN") == "mAKANAN"
  {
    var input := " mAKANAN";
    assert TrimStart(input) == "mAKANAN" by {
      assert IsWhitespace(input[0]);
      assert input[1..] == "mAKANAN";
      assert !IsWhitespace('m');
    }
    assert TrimEnd("mAKANAN") == "mAKANAN" by {
      assert !IsWhitespace('N');
    }
  }

  lemma LoweredExample()
    ensures EqualsIgnoringCase("Makanan", "mAKANAN")
  {
    var m, name := "Makanan", "mAKANAN";
    forall k | 0 <= k < 7
      ensures Lower(m)[k] == Lower(name)[k]
    {
      assert LowerChar(m[k]) == LowerChar(name[k]);
    }
  }

  /** Registering "Makanan" in another casing next to the defaults is refused as a duplicate. */
  lemma DuplicateOfDefaultRefused()
    ensures AddNewCategory(DefaultCategories, " mAKANAN") == Failure(DuplicateName)
  {
    TrimmedExample();
    LoweredExample();
    assert DefaultCategories[0] in DefaultCategories;
  }
}
