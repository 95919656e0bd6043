/** `SettingsAPI`: the page sizes of list endpoints, with their root validator. */
module ApiSettings {
  import opened Wrappers

  datatype SettingsAPI = SettingsAPI(pageSizeInitial: int, pageSizeMax: int)

  const Default: SettingsAPI := SettingsAPI(100, 1000)

  const InitialNotPositive: string := "page_size_initial must be greater than 0"
  const MaxNotPositive: string := "page_size_max must be greater than 0"

  /** `validate_get_max_page_size`: both sizes positive; no order between them is enforced. */
  function Validate(v: SettingsAPI): (r: Result<SettingsAPI, string>)
    ensures r.Success? <==> v.pageSizeInitial > 0 && v.pageSizeMax > 0
    ensures r.Success? ==> r.value == v
    ensures v.pageSizeInitial <= 0 ==> r == Failure(InitialNotPositive)
    ensures v.pageSizeInitial > 0 && v.pageSizeMax <= 0 ==> r == Failure(MaxNotPositive)
  {
    if v.pageSizeInitial <= 0 then Failure(InitialNotPositive)
    else if v.pageSizeMax <= 0 then Failure(MaxNotPositive)
    else Success(v)
  }

  /** A maximum below the initial size is accepted, since the ordering check is commented out. */
  lemma MaxBelowInitialAccepted(initial: int, max: int)
    requires 0 < max < initial
    ensures Validate(SettingsAPI(initial, max)) == Success(SettingsAPI(initial, max))
  {
  }

  lemma DefaultIsValid()
    ensures Validate(Default) == Success(Default)
  {
  }
}
