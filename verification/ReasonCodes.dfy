/** The reason codes that detail rows may carry. */
module ReasonCodes {
  import opened OperationTypes

  const WB_CODES: set<string> := {
    "wb_valid_calculated", "wb_no_promo_item", "wb_over_threshold", "wb_missing_article", "wb_invalid_current_price",
    "wb_duplicate_price_article", "wb_missing_required_column", "wb_invalid_promo_row", "wb_invalid_workbook",
    "wb_output_write_error", "wb_discount_out_of_range"
  }

  const WB_API_CODES: set<string> := {
    "wb_api_price_download_success", "wb_api_price_download_failed", "wb_api_price_row_valid",
    "wb_api_price_row_size_conflict", "wb_api_price_row_invalid", "wb_api_promotion_current",
    "wb_api_promotion_not_current_filtered", "wb_api_promotion_regular", "wb_api_promotion_auto_no_nomenclatures",
    "wb_api_promotion_product_valid", "wb_api_promotion_product_invalid", "wb_api_calculated_from_api_sources",
    "wb_api_upload_ready", "wb_api_upload_blocked_by_drift", "wb_api_upload_sent", "wb_api_upload_success",
    "wb_api_upload_partial_error", "wb_api_upload_all_error", "wb_api_upload_canceled", "wb_api_upload_quarantine",
    "wb_api_upload_status_unknown"
  }

  const OZON_CODES: set<string> := {
    "missing_min_price", "no_stock", "no_boost_prices", "use_max_boost_price", "use_min_price",
    "below_min_price_threshold", "insufficient_ozon_input_data", "ozon_api_action_not_elastic",
    "ozon_api_action_not_found", "ozon_api_missing_elastic_fields", "ozon_api_missing_product_info",
    "ozon_api_missing_stock_info", "ozon_api_product_not_eligible", "ozon_api_upload_blocked_by_drift",
    "ozon_api_upload_blocked_deactivate_unconfirmed", "ozon_api_upload_ready", "ozon_api_upload_rejected",
    "ozon_api_upload_partial_rejected", "ozon_api_upload_success", "ozon_api_deactivate_required",
    "ozon_api_deactivate_group_confirmed", "ozon_api_auth_failed", "ozon_api_response_invalid", "ozon_api_rate_limited",
    "ozon_api_timeout", "ozon_api_secret_redaction_violation"
  }

  datatype ReasonLists = ReasonLists(wb: set<string>, ozon: set<string>)

  const REASON_LISTS := ReasonLists(WB_CODES + WB_API_CODES, OZON_CODES)

  predicate StartsWithWb(reason: string) { |reason| >= 3 && reason[..3] == "wb_" }

  /** A blank code always fits. On Ozon any other must be one of Ozon's; elsewhere only the WB prefix is reserved. */
  predicate ReasonFits(lists: ReasonLists, marketplace: Marketplace, reason: string) {
    reason == ""
    || ((StartsWithWb(reason) ==> reason in lists.wb) && (marketplace.Ozon? ==> reason in lists.ozon))
  }
}
