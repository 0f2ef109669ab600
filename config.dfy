/** The deployment's defaults: queue and group names and the batch size. */
module Config {
  const SALES_ORG_QUEUE := "sales_org_queue"
  const ADAPTIVE_CARD_QUEUE := "adaptive_card_queue"
  const SALES_ORG_GROUP := "sales_org_group"
  const ADAPTIVE_CARD_GROUP := "adaptive_card_group"
  /** Default worker-name prefixes. */
  const SALES_ORG_WORKER_NAME := "sales_org_worker"
  const ADAPTIVE_CARD_WORKER_NAME := "adaptive_card_worker"
  /** XREADGROUP COUNT used by both workers. */
  const BATCH_COUNT: nat := 10
}
