/**
 * The province reference data both address forms read (vietnam-provinces.json):
 * provinces with their wards, which the forms offer as "districts".
 */
module Locations {
  import opened Wrappers

  datatype Ward = Ward(name: string, codename: string, code: int)
  datatype Province = Province(name: string, codename: string, code: int, wards: seq<Ward>)

  /** `provinces.find(p => p.codename === codename)`: the first province with that codename. */
  function FindProvince(provinces: seq<Province>, codename: string): (r: Option<Province>)
    ensures r.None? <==> forall i :: 0 <= i < |provinces| ==> provinces[i].codename != codename
    ensures r.Some? ==> exists i :: 0 <= i < |provinces| && provinces[i] == r.value
                          && r.value.codename == codename
                          && forall j :: 0 <= j < i ==> provinces[j].codename != codename
  {
    if provinces == [] then None
    else if provinces[0].codename == codename then Some(provinces[0])
    else
      var r := FindProvince(provinces[1..], codename);
      assert r.Some? ==> exists i :: 0 <= i < |provinces[1..]| && provinces[1..][i] == r.value
                          && r.value.codename == codename
                          && forall j :: 0 <= j < i ==> provinces[1..][j].codename != codename;
      if r.Some? then
        var i :| 0 <= i < |provinces[1..]| && provinces[1..][i] == r.value
                 && forall j :: 0 <= j < i ==> provinces[1..][j].codename != codename;
        assert provinces[i + 1] == r.value;
        assert forall j :: 0 <= j < i + 1 ==> provinces[j].codename != codename by {
          forall j | 0 <= j < i + 1 ensures provinces[j].codename != codename {
            if j > 0 { assert provinces[j] == provinces[1..][j - 1]; }
          }
        }
        r
      else
        assert forall i :: 0 <= i < |provinces| ==> provinces[i].codename != codename by {
          forall i | 0 <= i < |provinces| ensures provinces[i].codename != codename {
            if i > 0 { assert provinces[i] == provinces[1..][i - 1]; }
          }
        }
        r
  }
}
