/**
 * The suffix search both MdocFile revisions offer (`search_by_subframe_path`):
 * walk the sections in order, skip those whose SubFramePath is missing or
 * falsy, and keep those whose path, as a string, ends with the search
 * string. Unless the search is case-sensitive, both strings are lower-cased
 * first; the search string is lower-cased again at every section that gets
 * that far, so the needle the k-th comparison uses is the search string
 * lower-cased k times. The interpreter's `str.lower` and `str(...)` are
 * parameters.
 */
module SubframeSearch {
  import opened Text
  import opened PyValues

  /** The state the loop carries: indices of the matches so far and the current search string. */
  datatype SearchState = SearchState(matches: seq<nat>, needle: string)

  /** The path string the comparison reads: `str(path)`, lower-cased unless the search is case-sensitive. */
  function Haystack(path: Value, caseSensitive: bool, lower: string -> string, str: Value -> string): string {
    if caseSensitive then str(path) else lower(str(path))
  }

  /** The items at the given indices, in that order. */
  function Selected<T>(items: seq<T>, idx: seq<nat>): (r: seq<T>)
    requires forall k :: 0 <= k < |idx| ==> idx[k] < |items|
    ensures |r| == |idx| && forall k :: 0 <= k < |idx| ==> r[k] == items[idx[k]]
  {
    seq(|idx|, k requires 0 <= k < |idx| => items[idx[k]])
  }

  /** The search over the first n section paths. */
  function Search(paths: seq<Value>, search: string, caseSensitive: bool, lower: string -> string,
                  str: Value -> string, n: nat): (r: SearchState)
    requires n <= |paths|
    ensures |r.matches| <= n
    ensures forall k :: 0 <= k < |r.matches| ==> r.matches[k] < n
    decreases n
  {
    if n == 0 then SearchState([], search)
    else
      var st := Search(paths, search, caseSensitive, lower, str, n - 1);
      var path := paths[n - 1];
      if !Truthy(path) then st
      else
        var needle := if caseSensitive then st.needle else lower(st.needle);
        var hit := EndsWith(Haystack(path, caseSensitive, lower, str), needle);
        SearchState(st.matches + if hit then [n - 1] else [], needle)
  }

  /**
   * The matches are sections with a truthy path, in ascending order; the
   * needle is the search string itself while nothing was compared
   * case-insensitively.
   */
  lemma {:induction false} SearchShape(paths: seq<Value>, search: string, caseSensitive: bool, lower: string -> string,
                                       str: Value -> string, n: nat)
    requires n <= |paths|
    ensures forall k :: 0 <= k < |Search(paths, search, caseSensitive, lower, str, n).matches| ==>
      Truthy(paths[Search(paths, search, caseSensitive, lower, str, n).matches[k]])
    ensures forall k, l :: 0 <= k < l < |Search(paths, search, caseSensitive, lower, str, n).matches| ==>
      Search(paths, search, caseSensitive, lower, str, n).matches[k] < Search(paths, search, caseSensitive, lower, str, n).matches[l]
    ensures caseSensitive ==> Search(paths, search, caseSensitive, lower, str, n).needle == search
    ensures (forall i :: 0 <= i < n ==> !Truthy(paths[i])) ==> Search(paths, search, caseSensitive, lower, str, n).needle == search
    decreases n
  {
    if n > 0 {
      SearchShape(paths, search, caseSensitive, lower, str, n - 1);
      var st := Search(paths, search, caseSensitive, lower, str, n - 1);
      var r := Search(paths, search, caseSensitive, lower, str, n);
      if Truthy(paths[n - 1]) {
        var needle := if caseSensitive then st.needle else lower(st.needle);
        var hit := EndsWith(Haystack(paths[n - 1], caseSensitive, lower, str), needle);
        assert r.matches == st.matches + if hit then [n - 1] else [];
        forall k, l | 0 <= k < l < |r.matches|
          ensures r.matches[k] < r.matches[l]
        {
          assert r.matches[k] == st.matches[k] < n - 1;
          if l < |st.matches| {
            assert r.matches[l] == st.matches[l];
          }
        }
      } else {
        assert r == st;
      }
    }
  }

  /** One more section: skipped when its path is falsy, otherwise compared with the needle lower-cased once more. */
  lemma {:induction false} SearchStep(paths: seq<Value>, search: string, caseSensitive: bool, lower: string -> string,
                   str: Value -> string, i: nat)
    requires i < |paths|
    ensures var st := Search(paths, search, caseSensitive, lower, str, i);
      var needle := if caseSensitive then st.needle else lower(st.needle);
      Search(paths, search, caseSensitive, lower, str, i + 1)
      == if !Truthy(paths[i]) then st
         else SearchState(st.matches + if EndsWith(Haystack(paths[i], caseSensitive, lower, str), needle) then [i] else [], needle)
  {
  }

  /** The needle after n sections is the search string or, once a section was compared case-insensitively, its lower-case form. */
  lemma {:induction false} NeedleSettles(paths: seq<Value>, search: string, lower: string -> string, str: Value -> string, n: nat)
    requires n <= |paths|
    requires lower(lower(search)) == lower(search)
    ensures Search(paths, search, false, lower, str, n).needle in {search, lower(search)}
    ensures (exists i :: 0 <= i < n && Truthy(paths[i])) ==> Search(paths, search, false, lower, str, n).needle == lower(search)
    decreases n
  {
    if n > 0 {
      NeedleSettles(paths, search, lower, str, n - 1);
      if !Truthy(paths[n - 1]) {
        assert forall i :: 0 <= i < n && Truthy(paths[i]) ==> i < n - 1;
      }
    }
  }

  /**
   * When lower-casing the search string twice changes nothing, the search
   * keeps exactly the sections with a truthy path whose (lower-cased) string
   * ends with the (lower-cased) search string.
   */
  lemma {:induction false} SearchKeepsExactly(paths: seq<Value>, search: string, caseSensitive: bool, lower: string -> string,
                                              str: Value -> string, n: nat, i: nat)
    requires i < n <= |paths|
    requires caseSensitive || lower(lower(search)) == lower(search)
    ensures var needle := if caseSensitive then search else lower(search);
      (i in Search(paths, search, caseSensitive, lower, str, n).matches
       <==> Truthy(paths[i]) && EndsWith(Haystack(paths[i], caseSensitive, lower, str), needle))
    decreases n
  {
    SearchStep(paths, search, caseSensitive, lower, str, n - 1);
    var st := Search(paths, search, caseSensitive, lower, str, n - 1);
    var r := Search(paths, search, caseSensitive, lower, str, n);
    if i < n - 1 {
      SearchKeepsExactly(paths, search, caseSensitive, lower, str, n - 1, i);
      assert i in r.matches <==> i in st.matches;
    } else {
      assert i !in st.matches;
      if caseSensitive {
        SearchShape(paths, search, caseSensitive, lower, str, n - 1);
      } else {
        NeedleSettles(paths, search, lower, str, n - 1);
      }
    }
  }
}
