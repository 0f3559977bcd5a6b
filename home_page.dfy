/** The home page (web/src/app/page.tsx): the "top rated" strip and the
    hero search box that sends the visitor to the catalogue. */
module HomePage {
  import opened Wrappers
  import opened Text
  import opened Seqs
  import opened Api
  import UriComponent
  import RecipesPage

  /** How many recipes the strip shows: `.slice(0, 6)`. */
  const TopCount := 6

  function ByRating(): Recipe -> real {
    (r: Recipe) => r.averageRating
  }

  /** `fetchTopRecipes`: sorts the fetched array by average rating, highest
      first, in place, and keeps its first six entries. */
  method TopRated(fetched: seq<Recipe>) returns (top: seq<Recipe>)
    ensures |top| == if |fetched| < TopCount then |fetched| else TopCount
    ensures forall i, j :: 0 <= i < j < |top| ==> top[i].averageRating >= top[j].averageRating
    ensures multiset(top) <= multiset(fetched)
    ensures forall r, t :: r in multiset(fetched) - multiset(top) && t in top ==> r.averageRating <= t.averageRating
  {
    var data := new Recipe[|fetched|](i requires 0 <= i < |fetched| => fetched[i]);
    assert data[..] == fetched;
    SortByKeyDesc(data, ByRating());
    var k := if data.Length < TopCount then data.Length else TopCount;
    top := data[..k];
    ghost var sorted := data[..];
    SortedSplit(sorted, ByRating(), k);
    assert sorted == sorted[..k] + sorted[k..];
    assert multiset(sorted) == multiset(top) + multiset(sorted[k..]);
    forall r, t | r in multiset(fetched) - multiset(top) && t in top
      ensures r.averageRating <= t.averageRating
    {
      assert r in sorted[k..];
    }
  }

  const SearchPath := "/recipes?search="

  lemma EncodedAfterPrefix(prefix: string, v: string)
    requires forall i :: 0 <= i < |v| ==> UriComponent.IsEncodedChar(v[i])
    ensures (prefix + v)[..|prefix|] == prefix && (prefix + v)[|prefix|..] == v
    ensures forall i :: |prefix| <= i < |prefix + v| ==> UriComponent.IsEncodedChar((prefix + v)[i])
  {
    assert forall i :: |prefix| <= i < |prefix + v| ==> (prefix + v)[i] == v[i - |prefix|];
  }

  /** `handleSearch`: where the hero search box navigates. */
  function SearchTarget(query: string): (url: string)
    ensures IsBlank(query) ==> url == "/recipes"
    ensures !IsBlank(query) ==>
      && |url| > |SearchPath| && url[..|SearchPath|] == SearchPath
      && forall i :: |SearchPath| <= i < |url| ==> UriComponent.IsEncodedChar(url[i])
  {
    if IsBlank(query) then "/recipes"
    else
      var v := UriComponent.Encode(Trim(query));
      EncodedAfterPrefix(SearchPath, v);
      SearchPath + v
  }

  lemma AsciiSlice(s: string, i: nat, j: nat)
    requires i <= j <= |s| && UriComponent.IsAscii(s)
    ensures UriComponent.IsAscii(s[i..j])
  {
    forall k | 0 <= k < j - i ensures s[i..j][k] < '\U{80}' {
      assert s[i..j][k] == s[i + k];
    }
  }

  /** Trimming only drops characters, so ASCII text stays ASCII. */
  lemma TrimKeepsAscii(query: string)
    requires UriComponent.IsAscii(query)
    ensures UriComponent.IsAscii(Trim(query))
  {
    var i := FirstKept(query, 0);
    AsciiSlice(query, i, i + |Trim(query)|);
  }

  /** The catalogue reads the `search` parameter back as the trimmed query
      (for ASCII text), and seeds its search box with it. */
  lemma SearchReachesCatalogue(query: string)
    requires !IsBlank(query) && UriComponent.IsAscii(query)
    ensures UriComponent.Decode(SearchTarget(query)[|SearchPath|..]) == Trim(query)
    ensures Trim(query) != []
  {
    var t := Trim(query);
    TrimKeepsAscii(query);
    var v := UriComponent.Encode(t);
    EncodedAfterPrefix(SearchPath, v);
    assert SearchTarget(query)[|SearchPath|..] == v;
    UriComponent.DecodeEncode(t);
  }
}
