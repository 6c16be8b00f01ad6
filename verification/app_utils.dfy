/**
 The decisions the triplestore application makes while it boots: which
 properties the Kafka producer gets, where the RDF dataset lives, and which
 event service publishes notifications. Connections, producers and datasets
 are not built here: the producer properties are returned as a map, and the
 dataset location and the event service as tagged choices.
 */
module AppUtils {
  import opened Optional

  type Properties = map<string, string>

  const StringSerializer := "org.apache.kafka.common.serialization.StringSerializer"

  /** The producer settings a user may tune, with their defaults. */
  const TunableDefaults: Properties := map[
    "acks" := "all",
    "batch.size" := "16384",
    "retries" := "0",
    "linger.ms" := "1",
    "buffer.memory" := "33554432"
  ]

  /** The keys whose values are fixed whatever the user supplies. */
  const ForcedKeys: set<string> := {"key.serializer", "value.serializer", "bootstrap.servers"}

  /** The kinds of notification the configuration can name; only Kafka is acted upon. */
  datatype NotificationType = Kafka | Other(name: string)

  /**
   The notifications section of the configuration. `notificationType` is
   `None` when it was left unset; `any` holds every extra key the user wrote.
   */
  datatype NotificationsConfig = NotificationsConfig(
    enabled: bool,
    notificationType: Option<NotificationType>,
    connectionString: string,
    topicName: string,
    any: Properties)

  /** The event service the application ends up with. */
  datatype EventService =
    | KafkaPublisher(properties: Properties, topic: string)
    | NoopEventService

  /** Where the RDF dataset lives. */
  datatype RdfLocation =
    | Remote(url: string)
    | Tdb2(path: string)
    | InMemory

  /** `Map.getOrDefault`. */
  function GetOrDefault(m: Properties, key: string, default: string): string
  {
    if key in m then m[key] else default
  }

  /**
   The Kafka producer properties: the tunables (user value or default), then
   every user entry, then the two serializers and the broker address.
   */
  function KafkaProperties(config: NotificationsConfig): (p: Properties)
    ensures p.Keys == config.any.Keys + TunableDefaults.Keys + ForcedKeys
  {
    var any := config.any;
    var tuned := map[]
      ["acks" := GetOrDefault(any, "acks", "all")]
      ["batch.size" := GetOrDefault(any, "batch.size", "16384")]
      ["retries" := GetOrDefault(any, "retries", "0")]
      ["linger.ms" := GetOrDefault(any, "linger.ms", "1")]
      ["buffer.memory" := GetOrDefault(any, "buffer.memory", "33554432")];
    assert tuned.Keys == TunableDefaults.Keys;
    var overridden := tuned + any;
    overridden
      ["key.serializer" := StringSerializer]
      ["value.serializer" := StringSerializer]
      ["bootstrap.servers" := config.connectionString]
  }

  /**
   The value a single key takes, by precedence: a forced value, else the
   user's value, else the tunable's default, else none.
   */
  function KafkaProperty(config: NotificationsConfig, key: string): Option<string>
  {
    if key == "key.serializer" || key == "value.serializer" then Some(StringSerializer)
    else if key == "bootstrap.servers" then Some(config.connectionString)
    else if key in config.any then Some(config.any[key])
    else if key in TunableDefaults then Some(TunableDefaults[key])
    else None
  }

  /** The merged map agrees with the precedence rule on one key, present or not. */
  lemma KafkaPropertyAt(config: NotificationsConfig, k: string)
    ensures k in KafkaProperties(config) <==> KafkaProperty(config, k).Some?
    ensures k in KafkaProperties(config) ==> KafkaProperties(config)[k] == KafkaProperty(config, k).value
  {
  }

  /** The merged map agrees with the precedence rule on every key, present or not. */
  lemma KafkaPropertiesByPrecedence(config: NotificationsConfig)
    ensures forall k :: k in KafkaProperties(config) <==> KafkaProperty(config, k).Some?
    ensures forall k :: k in KafkaProperties(config) ==> KafkaProperties(config)[k] == KafkaProperty(config, k).value
  {
  }

  /**
   What the producer is given: the serializers and the broker address always
   as forced, every other user entry as the user wrote it, and each tunable
   the user left out at its default.
   */
  lemma KafkaPropertiesOverrides(config: NotificationsConfig)
    ensures KafkaProperties(config)["key.serializer"] == StringSerializer
    ensures KafkaProperties(config)["value.serializer"] == StringSerializer
    ensures KafkaProperties(config)["bootstrap.servers"] == config.connectionString
    ensures forall k :: k in config.any && k !in ForcedKeys ==> KafkaProperties(config)[k] == config.any[k]
    ensures forall k :: k in TunableDefaults && k !in config.any ==> KafkaProperties(config)[k] == TunableDefaults[k]
  {
    // Not needed on every solver seed, but without it some seeds run out of resource.
    KafkaPropertiesByPrecedence(config);
  }

  /**
   The getOrDefault layer only fills in defaults: the result is the defaults
   overlaid by the user's map, overlaid by the forced keys.
   */
  lemma KafkaPropertiesLayered(config: NotificationsConfig)
    ensures KafkaProperties(config) ==
      (TunableDefaults + config.any)
        ["key.serializer" := StringSerializer]
        ["value.serializer" := StringSerializer]
        ["bootstrap.servers" := config.connectionString]
  {
  }

  /** Java's `String.startsWith`: a case-sensitive prefix test. */
  predicate StartsWith(s: string, prefix: string)
  {
    |prefix| <= |s| && s[..|prefix|] == prefix
  }

  /** The prefix test holds exactly when the string is the prefix followed by something. */
  lemma StartsWithIffConcat(s: string, prefix: string)
    ensures StartsWith(s, prefix) <==> exists rest :: s == prefix + rest
  {
    if StartsWith(s, prefix) {
      assert s == prefix + s[|prefix|..];
    }
    if exists rest :: s == prefix + rest {
      var rest :| s == prefix + rest;
      assert s[..|prefix|] == prefix;
    }
  }

  /** A location served over HTTP: "http://" or "https://" followed by anything. */
  ghost predicate IsHttpLocation(loc: string)
  {
    exists rest :: loc == "http://" + rest || loc == "https://" + rest
  }

  /**
   Where the dataset lives, from the configured resources location: nowhere
   configured means in memory; an http or https URL means a remote endpoint;
   any other string, the empty one included, is a TDB2 directory.
   */
  function ClassifyLocation(resources: Option<string>): (r: RdfLocation)
    ensures r.InMemory? <==> resources.None?
    ensures r.Remote? <==> resources.Some? && IsHttpLocation(resources.value)
    ensures r.Tdb2? <==> resources.Some? && !IsHttpLocation(resources.value)
    ensures r.Remote? ==> r.url == resources.value
    ensures r.Tdb2? ==> r.path == resources.value
  {
    match resources
    case None => InMemory
    case Some(loc) =>
      StartsWithIffConcat(loc, "http://");
      StartsWithIffConcat(loc, "https://");
      if StartsWith(loc, "http://") || StartsWith(loc, "https://") then Remote(loc) else Tdb2(loc)
  }

  /** The scheme match is case-sensitive and the empty location is a TDB2 path. */
  lemma ClassifyEdgeCases()
    ensures ClassifyLocation(Some("")) == Tdb2("")
    ensures ClassifyLocation(Some("HTTP://example.org/sparql")) == Tdb2("HTTP://example.org/sparql")
    ensures ClassifyLocation(Some("https://example.org/sparql")) == Remote("https://example.org/sparql")
    ensures ClassifyLocation(Some("/var/lib/trellis")) == Tdb2("/var/lib/trellis")
  {
    assert !StartsWith("", "http://");
    assert "HTTP://example.org/sparql"[0] != "http://"[0];
    assert "HTTP://example.org/sparql"[0] != "https://"[0];
    assert "https://example.org/sparql"[..8] == "https://";
    assert "/var/lib/trellis"[0] != "http://"[0];
  }

  /**
   The event service: a Kafka publisher, with the merged producer properties
   and the configured topic, exactly when notifications are enabled and the
   type is Kafka; the no-op service otherwise.
   */
  function NotificationService(config: NotificationsConfig): (s: EventService)
    ensures s.KafkaPublisher? <==> config.enabled && config.notificationType == Some(Kafka)
    ensures s.KafkaPublisher? ==>
      && s.topic == config.topicName
      && s.properties == KafkaProperties(config)
  {
    if config.enabled && config.notificationType == Some(Kafka) then
      KafkaPublisher(KafkaProperties(config), config.topicName)
    else
      NoopEventService
  }
}
