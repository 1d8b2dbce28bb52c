/** `CustomCategoryManager`: the user's own category names, kept as one string list under a
    fixed key of the user-defaults store and offered as suggestions. */
module CustomCategories {

  /** The user-defaults key the list lives under. */
  const StorageKey: string := "SavedCustomCategories"

  predicate NoDuplicates(s: seq<string>) {
    forall i, j :: 0 <= i < j < |s| ==> s[i] != s[j]
  }

  /** The list after saving `name`: appended at the end unless already present
      (by case-sensitive equality). */
  function WithCategory(list: seq<string>, name: string): (r: seq<string>)
    ensures name in r
    ensures forall x :: x in r <==> x in list || x == name
    ensures |list| <= |r| <= |list| + 1 && r[..|list|] == list
    ensures name in list <==> r == list
  {
    if name in list then list else list + [name]
  }

  /** Saving the same name twice is saving it once. */
  lemma WithCategoryIdempotent(list: seq<string>, name: string)
    ensures WithCategory(WithCategory(list, name), name) == WithCategory(list, name)
  {
  }

  /** A duplicate-free list stays duplicate-free. */
  lemma WithCategoryKeepsNoDuplicates(list: seq<string>, name: string)
    requires NoDuplicates(list)
    ensures NoDuplicates(WithCategory(list, name))
  {
    var r := WithCategory(list, name);
    if name !in list {
      forall i, j | 0 <= i < j < |r| ensures r[i] != r[j] {
        if j == |list| {
          assert r[i] == list[i];
        }
      }
    }
  }

  class CustomCategoryManager {
    /** The user-defaults store, as a map from key to the string list stored there. */
    var defaults: map<string, seq<string>>

    /** What `fetchCategories()` returns: the stored list, or the empty list if none. */
    function Categories(): (r: seq<string>)
      reads this
      ensures StorageKey !in defaults ==> r == []
    {
      if StorageKey in defaults then defaults[StorageKey] else []
    }

    constructor (stored: map<string, seq<string>>)
      ensures defaults == stored
    {
      defaults := stored;
    }

    method FetchCategories() returns (r: seq<string>)
      ensures StorageKey in defaults ==> r == defaults[StorageKey]
      ensures StorageKey !in defaults ==> r == []
    {
      if StorageKey in defaults {
        r := defaults[StorageKey];
      } else {
        r := [];
      }
    }

    /** `saveCategory(_:)`: copies the list, appends `name` if it is missing and writes the
        list back; a name already present causes no write at all. */
    method SaveCategory(name: string)
      modifies this
      ensures Categories() == WithCategory(old(Categories()), name)
      ensures name in old(Categories()) ==> defaults == old(defaults)
      ensures name !in old(Categories()) ==>
        defaults == old(defaults)[StorageKey := old(Categories()) + [name]]
    {
      var current := FetchCategories();
      if name !in current {
        current := current + [name];
        defaults := defaults[StorageKey := current];
      }
    }
  }

  /** Two saves of the same name leave the store as one save does. */
  method SaveTwiceIsSaveOnce(m: CustomCategoryManager, name: string)
    modifies m
    ensures m.Categories() == WithCategory(old(m.Categories()), name)
    ensures name in m.Categories()
  {
    m.SaveCategory(name);
    ghost var once := m.defaults;
    m.SaveCategory(name);
    assert m.defaults == once;
  }
}
