/**
 * Where EMPIAR files live (empiar_to_cets/utils/empiar_utils.py): the base
 * URL every converted path starts with, the number of an accession, and the
 * URL of a file inside an entry's data directory.
 */
module EmpiarFiles {
  import opened Wrappers
  import opened Text

  /** `EMPIAR_BASE_URL`. */
  const EmpiarBaseUrl: string := "https://ftp.ebi.ac.uk/empiar/world_availability/"

  /**
   * `accession_id.split("-")[1]`: the text between the first "-" and the
   * next one (or the end); an IndexError when the id has no "-".
   */
  function AccessionNo(accessionId: string): (r: Result<string>)
    ensures r.Ok? <==> '-' in accessionId
    ensures r.Err? ==> r.error == IndexError
    ensures r.Ok? ==> '-' !in r.value
    ensures r.Ok? ==> StartsWith(accessionId[FirstIndex(accessionId, '-') + 1..] + "-", r.value + "-")
  {
    var i := FirstIndex(accessionId, '-');
    if i == |accessionId| then Err(IndexError)
    else
      var rest := accessionId[i + 1..];
      var j := FirstIndex(rest, '-');
      assert (rest + "-")[..j + 1] == rest[..j] + "-";
      Ok(rest[..j])
  }

  /** `f"{EMPIAR_BASE_URL}{accession_no}/data/{path}"`. */
  function DataUrl(accessionNo: string, path: string): (r: string)
    ensures StartsWith(r, EmpiarBaseUrl) && EndsWith(r, "/data/" + path)
  {
    var r := EmpiarBaseUrl + accessionNo + "/data/" + path;
    assert r[..|EmpiarBaseUrl|] == EmpiarBaseUrl;
    assert r[|r| - |"/data/" + path|..] == "/data/" + path;
    r
  }

  /** Within one entry, different files have different URLs. */
  lemma {:induction false} DataUrlInjective(accessionNo: string, p: string, q: string)
    requires DataUrl(accessionNo, p) == DataUrl(accessionNo, q)
    ensures p == q
  {
    var prefix := EmpiarBaseUrl + accessionNo + "/data/";
    assert DataUrl(accessionNo, p) == prefix + p && DataUrl(accessionNo, q) == prefix + q;
    assert p == DataUrl(accessionNo, p)[|prefix|..];
  }
}
