/**
 * The constants the core uses. Their real values are defined in
 * bd.emon.movies.common, which this model does not include; the strings
 * below are stand-ins whose only role is to be pairwise distinct.
 */
module Constants {

  const IMAGE_BASE_URL: string := "IMAGE_BASE_URL/"
  const INVALID_VIEW_HOLDER: string := "INVALID_VIEW_HOLDER"

  const DEFAULT_ORDER_BY: string := "DEFAULT_ORDER_BY"

  // user-facing error messages, one per failure category
  const NO_DATA_ERR: string := "NO_DATA_ERR"
  const NETWORK_ERROR_DEFAULT: string := "NETWORK_ERROR_DEFAULT"
  const SAVE_TO_PREF_ERROR_DEFAULT: string := "SAVE_TO_PREF_ERROR_DEFAULT"

  // keys of the outbound API parameter map
  const PARAM_API_KEY: string := "PARAM_API_KEY"
  const PARAM_LANGUAGE: string := "PARAM_LANGUAGE"
  const PARAM_GENRES: string := "PARAM_GENRES"
  const PARAM_SORT_BY: string := "PARAM_SORT_BY"
  const PARAM_INCLUDE_ADULT: string := "PARAM_INCLUDE_ADULT"
  const PARAM_PAGE: string := "PARAM_PAGE"
  const PARAM_RELEASE_YEAR: string := "PARAM_RELEASE_YEAR"
  const PARAM_VOTE_COUNT_GREATER_THAN: string := "PARAM_VOTE_COUNT_GREATER_THAN"
}
