/** The LocationSearch component: a search box, a region selector and a list of
    geocoding candidates. Its three `useState` slots are the fields of `SearchBox`.
    The callbacks it is given (`onSearch`, `onLocationSelect`) are modelled by what
    the handlers pass to them, returned as results. */
module LocationSearch {
  import opened Wrappers
  import opened Text
  import opened WeatherTypes

  /** What `handleLocationSelect` passes to `onLocationSelect`. */
  datatype Selection = Selection(coords: Coordinates, name: string, country: string)

  /** The grey line under a candidate's name: "state, " when the state is a non-empty
      string, then the country. */
  function ResultDetail(result: GeocodingResult): (detail: string)
    ensures |result.country| <= |detail|
    ensures detail[|detail| - |result.country|..] == result.country
    ensures result.state.Some? && result.state.value != "" ==>
              detail == result.state.value + ", " + result.country
    ensures result.state.None? || result.state.value == "" ==> detail == result.country
  {
    var prefix := if result.state.Some? && result.state.value != "" then result.state.value + ", " else "";
    prefix + result.country
  }

  class SearchBox {
    var query: string
    var region: string
    var showResults: bool

    /** The first render: `regions[0]` must exist. */
    constructor(regions: seq<Region>)
      requires |regions| > 0
      ensures query == "" && region == regions[0].value && !showResults
    {
      query := "";
      region := regions[0].value;
      showResults := false;
    }

    /** `handleSearch`: a query with a non-white-space character is searched as typed,
        untrimmed, and opens the result list; otherwise the region is searched and the
        list is closed. */
    method HandleSearch() returns (searched: string)
      modifies this
      ensures !IsBlank(query) ==> searched == query && showResults
      ensures IsBlank(query) ==> searched == region && !showResults
      ensures query == old(query) && region == old(region)
    {
      var typed := query;
      var trimmed := Trim(typed);
      TrimEmptyIffBlank(typed);
      if trimmed != "" {
        searched := typed;
        showResults := true;
      } else {
        searched := region;
        showResults := false;
      }
    }

    /** `handleKeyDown`: only Enter searches; any other key changes nothing. */
    method HandleKeyDown(key: string) returns (searched: Option<string>)
      modifies this
      ensures key != "Enter" ==> searched.None? && unchanged(this)
      ensures key == "Enter" ==> searched.Some?
      ensures key == "Enter" && !IsBlank(query) ==> searched == Some(query) && showResults
      ensures key == "Enter" && IsBlank(query) ==> searched == Some(region) && !showResults
      ensures query == old(query) && region == old(region)
    {
      if key == "Enter" {
        var s := HandleSearch();
        searched := Some(s);
      } else {
        searched := None;
      }
    }

    /** `handleLocationSelect`: reports exactly the candidate's position, name and
        country, then clears the query and closes the list. */
    method HandleLocationSelect(result: GeocodingResult) returns (selected: Selection)
      modifies this
      ensures selected.coords == Coordinates(result.lat, result.lon)
      ensures selected.name == result.name && selected.country == result.country
      ensures query == "" && !showResults
      ensures region == old(region)
    {
      selected := Selection(Coordinates(result.lat, result.lon), result.name, result.country);
      query := "";
      showResults := false;
    }

    /** The input's `onChange`. */
    method OnQueryInput(value: string)
      modifies this
      ensures query == value
      ensures region == old(region) && showResults == old(showResults)
    {
      query := value;
    }

    /** The selector's `onValueChange`: the new region and an empty query; whether the
        list is open is left as it was. */
    method OnRegionChange(value: string)
      modifies this
      ensures region == value && query == ""
      ensures showResults == old(showResults)
    {
      region := value;
      query := "";
    }

    /** The candidate list is rendered only when it was opened and has an entry. */
    predicate ResultsVisible(results: seq<GeocodingResult>)
      reads this
    {
      showResults && |results| > 0
    }
  }

  /** After choosing a region, a search asks for that region and closes the list: the
      query the region change cleared is blank. */
  method ChooseRegionThenSearch(box: SearchBox, value: string, results: seq<GeocodingResult>)
    returns (searched: string)
    modifies box
    ensures searched == value
    ensures !box.showResults
    ensures !box.ResultsVisible(results)
  {
    box.OnRegionChange(value);
    searched := box.HandleSearch();
  }

  /** Selecting a candidate always hides the list, whatever the candidates. */
  method SelectHidesResults(box: SearchBox, result: GeocodingResult, results: seq<GeocodingResult>)
    returns (selected: Selection)
    modifies box
    ensures selected.name == result.name
    ensures !box.ResultsVisible(results)
  {
    selected := box.HandleLocationSelect(result);
  }
}
