/** Vocabulary shared by the operation models: scenarios, step codes and message levels. */
module OperationTypes {
  datatype Marketplace = Wb | Ozon | UnsetMarketplace | OtherMarketplace

  datatype OperationModule = DiscountsExcel | WbApi | OzonApi

  datatype Mode = Excel | Api

  datatype StepCode =
    | NoStep
    | WbPricesDownload | WbPromotionsDownload | WbDiscountCalculation | WbDiscountUpload
    | OzonConnectionCheck | OzonActionsDownload | OzonActiveProductsDownload | OzonCandidateProductsDownload
    | OzonProductDataDownload | OzonElasticCalculation | OzonElasticUpload

  predicate IsWbStep(step: StepCode) {
    step.WbPricesDownload? || step.WbPromotionsDownload? || step.WbDiscountCalculation? || step.WbDiscountUpload?
  }

  predicate IsOzonStep(step: StepCode) { !step.NoStep? && !IsWbStep(step) }

  /** Where an operation runs: store 0 stands for a missing store. */
  datatype Scenario = Scenario(marketplace: Marketplace, module_: OperationModule, mode: Mode, store: nat)
}
