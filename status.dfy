/**
 * COM status codes (HRESULT) as unsigned 32-bit values, and the Win32 error
 * conversion used when the preview dialog cannot be created.
 */
module Status {
  newtype uint32 = x: int | 0 <= x < 0x1_0000_0000

  type HResult = uint32

  const S_OK: HResult := 0
  const E_FAIL: HResult := 0x8000_4005
  const E_INVALIDARG: HResult := 0x8007_0057

  /** SUCCEEDED(hr): the signed reading of hr is not negative. */
  predicate Succeeded(hr: HResult) {
    hr < 0x8000_0000
  }

  /**
   * HRESULT_FROM_WIN32(x): a value that is zero or already negative as a
   * signed 32-bit number is passed through; any other code keeps its low 16
   * bits under FACILITY_WIN32 (7) with the failure bit set.
   */
  function FromWin32(x: uint32): (hr: HResult)
    ensures Succeeded(hr) <==> x == 0
    ensures x == 0 || x >= 0x8000_0000 ==> hr == x
    ensures !Succeeded(hr) ==> hr % 0x1_0000 == x % 0x1_0000
    ensures x != 0 && x < 0x8000_0000 ==> hr / 0x1_0000 == 0x8007
  {
    if x == 0 || x >= 0x8000_0000 then x else x % 0x1_0000 + 0x8007_0000
  }
}
