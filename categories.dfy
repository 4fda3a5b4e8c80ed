/** Product categories (`get_product_categories`) and the one-line summary the prompt
    receives (`categories_str`). The request is an input (`None` for any failure of
    the call or of JSON decoding), and Python's `str()` of one decoded element is the
    parameter `render`. */
module Categories {
  import opened Wrappers
  import opened Json

  /** The list comprehension `[str(category) for category in categories]`. */
  function RenderAll(items: seq<Value>, render: Value -> string): (r: seq<string>)
    ensures |r| == |items|
    ensures forall i :: 0 <= i < |items| ==> r[i] == render(items[i])
  {
    if items == [] then [] else [render(items[0])] + RenderAll(items[1..], render)
  }

  /** get_product_categories: a decoded list gives its elements rendered in order;
      any other body, and every failure, gives the empty list. */
  function ProductCategories(response: Option<Value>, render: Value -> string): (r: seq<string>)
    ensures response.Some? && response.value.Arr? ==>
      |r| == |response.value.items| &&
      forall i :: 0 <= i < |r| ==> r[i] == render(response.value.items[i])
    ensures !(response.Some? && response.value.Arr?) ==> r == []
  {
    match response
    case Some(Arr(items)) => RenderAll(items, render)
    case _ => []
  }

  /** What the prompt shows when there is no category. */
  const NoCategories: string := "No categories available"

  const Separator: string := ", "

  /** Total length of a list of strings. */
  function TotalLength(xs: seq<string>): nat
  {
    if xs == [] then 0 else |xs[0]| + TotalLength(xs[1..])
  }

  /** Python's `sep.join(xs)`: every element once, in order, with one separator
      between neighbours and none at either end. */
  function Join(xs: seq<string>, sep: string): (r: string)
    ensures |xs| > 0 ==> |r| == TotalLength(xs) + (|xs| - 1) * |sep|
    ensures |xs| == 0 ==> r == ""
    ensures |xs| > 0 ==> xs[0] <= r
    ensures |xs| > 1 ==> r[|xs[0]|..|xs[0]| + |sep|] == sep
  {
    if |xs| == 0 then ""
    else if |xs| == 1 then xs[0]
    else xs[0] + sep + Join(xs[1..], sep)
  }

  /** `sep` occurs in `s` starting at position `j`. */
  predicate OccursAt(s: string, sep: string, j: int)
  {
    0 <= j && j + |sep| <= |s| && s[j..j + |sep|] == sep
  }

  /** The first position at or after `from` where `sep` occurs in `s`. */
  function FindFrom(s: string, sep: string, from: nat): (r: Option<nat>)
    requires |sep| > 0
    ensures r.Some? ==> from <= r.value && OccursAt(s, sep, r.value)
    ensures r.Some? ==> forall j :: from <= j < r.value ==> !OccursAt(s, sep, j)
    ensures r.None? ==> forall j :: from <= j ==> !OccursAt(s, sep, j)
    decreases |s| - from
  {
    if from + |sep| > |s| then None
    else if s[from..from + |sep|] == sep then Some(from)
    else FindFrom(s, sep, from + 1)
  }

  /** Python's `s.split(sep)`: the pieces between the leftmost non-overlapping occurrences of `sep`. */
  function Split(s: string, sep: string): (r: seq<string>)
    requires |sep| > 0
    ensures |r| > 0
    decreases |s|
  {
    match FindFrom(s, sep, 0)
    case None => [s]
    case Some(i) => [s[..i]] + Split(s[i + |sep|..], sep)
  }

  /** `categories_str`: the joined categories, or the fixed notice for an empty list. */
  function CategoriesLine(categories: seq<string>): (line: string)
    ensures categories == [] ==> line == NoCategories
    ensures |categories| == 1 ==> line == categories[0]
    ensures |categories| > 1 ==> line == categories[0] + Separator + CategoriesLine(categories[1..])
  {
    if categories == [] then NoCategories else Join(categories, Separator)
  }

  /** Joining is undone by splitting, provided no category itself contains the
      separator: the summary keeps every category, in order. */
  lemma {:induction false} SplitJoin(xs: seq<string>)
    requires |xs| > 0
    requires forall i, j :: 0 <= i < |xs| ==> !OccursAt(xs[i], Separator, j)
    ensures Split(Join(xs, Separator), Separator) == xs
  {
    var s := Join(xs, Separator);
    var x := xs[0];
    if |xs| == 1 {
      assert s == x;
    } else {
      var rest := Join(xs[1..], Separator);
      assert s == x + Separator + rest;
      assert OccursAt(s, Separator, |x|) by {
        assert s[|x|..|x| + 2] == Separator;
      }
      forall j | 0 <= j < |x| ensures !OccursAt(s, Separator, j) {
        if j + 2 <= |x| {
          assert s[j..j + 2] == x[j..j + 2];
          assert !OccursAt(xs[0], Separator, j);
        } else {
          assert s[j + 1] == Separator[0] == ',';
          assert s[j..j + 2][1] == ',' != Separator[1];
        }
      }
      assert FindFrom(s, Separator, 0) == Some(|x|);
      assert s[..|x|] == x;
      assert s[|x| + 2..] == rest;
      forall i, j | 0 <= i < |xs[1..]| ensures !OccursAt(xs[1..][i], Separator, j) {
        assert xs[1..][i] == xs[i + 1];
      }
      SplitJoin(xs[1..]);
    }
  }

  /** The usual upstream list of category names: with `str()` the identity on strings,
      get_product_categories returns the names themselves, in order, and the prompt
      line joins exactly those names. */
  lemma {:induction false} StringCategories(items: seq<Value>, names: seq<string>, render: Value -> string)
    requires |items| == |names|
    requires forall i :: 0 <= i < |items| ==> items[i] == Str(names[i])
    requires forall s :: render(Str(s)) == s
    ensures ProductCategories(Some(Arr(items)), render) == names
    ensures CategoriesLine(ProductCategories(Some(Arr(items)), render))
            == if names == [] then NoCategories else Join(names, Separator)
  {
    var r := ProductCategories(Some(Arr(items)), render);
    assert |r| == |names|;
    forall i | 0 <= i < |r| ensures r[i] == names[i] {
      assert r[i] == render(items[i]) == render(Str(names[i]));
    }
  }

  /** A non-empty category list survives the summary line unchanged when no
      category contains the separator. */
  lemma CategoriesLineRoundTrip(categories: seq<string>)
    requires categories != []
    requires forall i, j :: 0 <= i < |categories| ==> !OccursAt(categories[i], Separator, j)
    ensures Split(CategoriesLine(categories), Separator) == categories
  {
    SplitJoin(categories);
  }
}
