/**
 * `frontend/lib/validation.ts`: the form validators of the character and race editors.
 * Each returns `{ valid: false, error }` for the first rule the input breaks and
 * `{ valid: true }` otherwise.
 */
module FormValidation {
  import opened Wrappers
  import opened Text
  import opened Types

  /** The shared shape of the two name validators, with their three messages. */
  function ValidateName(name: string, emptyError: string, shortError: string, longError: string): (r: Validation)
    ensures r.valid <==> !IsBlank(name) && 2 <= |name| <= 50
    ensures r.error.Some? <==> !r.valid
    ensures IsBlank(name) ==> r.error == Some(emptyError)
    ensures !IsBlank(name) && |name| < 2 ==> r.error == Some(shortError)
    ensures !IsBlank(name) && |name| > 50 ==> r.error == Some(longError)
  {
    if name == [] || Trim(name) == [] then Validation(false, Some(emptyError))
    else if |name| < 2 then Validation(false, Some(shortError))
    else if |name| > 50 then Validation(false, Some(longError))
    else Validation(true, None)
  }

  /** `validateCharacterName`. */
  function ValidateCharacterName(name: string): (r: Validation)
    ensures r.valid <==> !IsBlank(name) && 2 <= |name| <= 50
    ensures r.error.Some? <==> !r.valid
  {
    ValidateName(name, "Имя не может быть пустым",
      "Имя должно содержать крайне минимум 2 символа", "Имя слишком длинное")
  }

  /** `validateCustomRaceName`: the same rules with the race editor's messages. */
  function ValidateCustomRaceName(name: string): (r: Validation)
    ensures r.valid <==> !IsBlank(name) && 2 <= |name| <= 50
    ensures r.error.Some? <==> !r.valid
  {
    ValidateName(name, "Название расы не может быть пустым",
      "Название расы должно содержать крайне минимум 2 символа", "Название расы слишком длинное")
  }

  /** The length limits apply to the untrimmed name: surrounding spaces count. */
  lemma LengthIsUntrimmed()
    ensures ValidateCharacterName(" a").valid
    ensures !ValidateCharacterName("a").valid
  {
    assert !IsSpace(" a"[1]);
  }

  /** `validateSpeed`. */
  function ValidateSpeed(speed: int): (r: Validation)
    ensures r.valid <==> 0 <= speed <= 120
    ensures r.error.Some? <==> !r.valid
    ensures speed < 0 ==> r.error == Some("Скорость не может быть отрицательной")
    ensures speed > 120 ==> r.error == Some("Скорость слишком высокая")
  {
    if speed < 0 then Validation(false, Some("Скорость не может быть отрицательной"))
    else if speed > 120 then Validation(false, Some("Скорость слишком высокая"))
    else Validation(true, None)
  }
}
