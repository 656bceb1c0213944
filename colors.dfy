/** Shared vocabulary of the simulator: colour tokens, tube slots and the
    per-tube capacity. The palette module of the application (its colour
    list and display values) is not part of this model; a colour is an
    opaque string token and the capacity is a fixed constant. */
module Colors {

  datatype Option<T> = None | Some(value: T)

  /** A colour token such as "red". */
  type Color = string

  /** One level of a tube: a colour unit, or empty (`null` in the source). */
  type Slot = Option<Color>

  /** Number of levels in every tube. */
  const MAX_LEVELS: nat := 4

  /** No element occurs twice. */
  predicate Distinct<T(==)>(s: seq<T>) {
    forall i, j :: 0 <= i < j < |s| ==> s[i] != s[j]
  }

  /** In a duplicate-free sequence every value occurs at most once. */
  lemma {:induction false} DistinctOccursOnce<T>(s: seq<T>, x: T)
    requires Distinct(s)
    ensures multiset(s)[x] <= 1
  {
    if |s| > 0 {
      assert s == [s[0]] + s[1..];
      assert Distinct(s[1..]) by {
        forall i, j | 0 <= i < j < |s[1..]| ensures s[1..][i] != s[1..][j] {
          assert s[1..][i] == s[i + 1] && s[1..][j] == s[j + 1];
        }
      }
      DistinctOccursOnce(s[1..], x);
      if x == s[0] {
        assert x !in s[1..] by {
          forall k | 0 <= k < |s[1..]| ensures s[1..][k] != x {
            assert s[1..][k] == s[k + 1];
          }
        }
      }
    }
  }
}
