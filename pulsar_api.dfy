/** The part of the Pulsar C client's vocabulary the plugin uses: result
    codes, the producer-configuration enumerations, and the message and
    message-id objects whose ownership the plugin manages. The client itself
    (connections, queues, threads) is outside the model: what it answers is
    given to the model as input. */
module PulsarApi {
  import opened Common

  /** `pulsar_result`: `pulsar_result_Ok` or one of the failure codes. */
  datatype PulsarResult = ResultOk | ResultError(code: nat)

  /** `pulsar_message_t`, created by `pulsar_message_create` and filled by
      `pulsar_message_set_content`. */
  class Message {
    const content: Bytes

    constructor (content: Bytes)
      ensures this.content == content
    {
      this.content := content;
    }
  }

  /** `pulsar_message_id_t`, handed to the completion callback by the client. */
  class MessageId {
  }

  /** `pulsar_compression_type`. */
  datatype Compression =
    | CompressionNone
    | CompressionLZ4
    | CompressionZLib
    | CompressionZSTD
    | CompressionSNAPPY

  /** `pulsar_partitions_routing_mode`. */
  datatype RoutingMode = UseSinglePartition | RoundRobinDistribution | CustomPartition

  /** `pulsar_hashing_scheme`. */
  datatype HashingScheme = JavaStringHash | Murmur3_32Hash | BoostHash

  /** `pulsar_producer_crypto_failure_action`. */
  datatype CryptoFailureAction = ProducerFail | ProducerSend
}
