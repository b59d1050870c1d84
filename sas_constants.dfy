/** The query-parameter keys of a blob SAS (AzureBlobStorage/SasParameters.cs). */
module SasParameters {
  const Version := "sv"
  const Protocol := "spr"
  const StartTime := "st"
  const ExpiryTime := "se"
  const IPRange := "sip"
  const Identifier := "si"
  const Resource := "sr"
  const Permissions := "sp"
  const Signature := "sig"
  const KeyObjectId := "skoid"
  const KeyTenantId := "sktid"
  const KeyStart := "skt"
  const KeyExpiry := "ske"
  const KeyService := "sks"
  const KeyVersion := "skv"
  const CacheControl := "rscc"
  const ContentDisposition := "rscd"
  const ContentEncoding := "rsce"
  const ContentLanguage := "rscl"
  const ContentType := "rsct"
  const PreauthorizedAgentObjectId := "saoid"
  const CorrelationId := "scid"
}

/** The signed-resource codes of a blob SAS (AzureBlobStorage/SasResource.cs). */
module SasResource {
  const BlobSnapshot := "bs"
  const BlobVersion := "bv"
  const Blob := "b"
  const Container := "c"
}
