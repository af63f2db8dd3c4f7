/**
 The dialect registry: the database systems offered in the selector, in display
 order, and the example query that pre-fills the editor for each of them.
 */
module Constants {

  /** One entry of the selector: the identifier used everywhere else and the
      label shown to the user. */
  datatype DbSystemOption = DbSystemOption(value: string, displayLabel: string)

  // The dialect identifiers.
  const BigQuery: string := "bigquery"
  const Snowflake: string := "snowflake"
  const Redshift: string := "redshift"
  const Azure: string := "azure"
  const MySql: string := "mysql"
  const Postgres: string := "postgres"
  const MongoDb: string := "mongodb"
  const DynamoDb: string := "dynamodb"

  const DatabaseSystems: seq<DbSystemOption> := [
    DbSystemOption(BigQuery, "Google BigQuery"),
    DbSystemOption(Snowflake, "Snowflake"),
    DbSystemOption(Redshift, "Amazon Redshift"),
    DbSystemOption(Azure, "Azure Synapse"),
    DbSystemOption(MySql, "MySQL"),
    DbSystemOption(Postgres, "PostgreSQL"),
    DbSystemOption(MongoDb, "MongoDB"),
    DbSystemOption(DynamoDb, "DynamoDB (Scan/Query)")
  ]

  // The example queries, character for character.

  const BigQueryExample: string :=
    "-- This query joins a large fact table"
    + " with a dimension table.\n"
    + "-- It might be inefficient if tables"
    + " are not partitioned and clustered"
    + " correctly.\n"
    + "SELECT\n"
    + "  u.country,\n"
    + "  COUNT(e.event_id) AS total_events\n"
    + "FROM\n"
    + "  `my-project.my_dataset.events` AS e\n"
    + "JOIN\n"
    + "  `my-project.my_dataset.users` AS u ON"
    + " e.user_id = u.user_id\n"
    + "WHERE\n"
    + "  e.event_date BETWEEN '2024-01-01' AND"
    + " '2024-01-31'\n"
    + "GROUP BY\n"
    + "  u.country\n"
    + "ORDER BY\n"
    + "  total_events DESC;"

  const SnowflakeExample: string :=
    "-- This query filters a large table"
    + " with a WHERE clause on a VARIANT"
    + " column.\n"
    + "-- This can be slow as it may require a"
    + " full table scan without proper"
    + " clustering.\n"
    + "SELECT\n"
    + "  raw_event:event_name::STRING AS"
    + " event_name,\n"
    + "  COUNT(*) as event_count\n"
    + "FROM\n"
    + "  events_raw_data\n"
    + "WHERE\n"
    + "  raw_event:user_properties.country::STR"
    + "ING = 'USA'\n"
    + "  AND event_timestamp >= '2024-01-01'\n"
    + "GROUP BY 1\n"
    + "ORDER BY 2 DESC;"

  const RedshiftExample: string :=
    "-- This query joins two large tables.\n"
    + "-- If the distribution keys are not"
    + " aligned with the join keys,\n"
    + "-- it will cause significant data"
    + " shuffling across the cluster.\n"
    + "SELECT\n"
    + "  c.customer_name,\n"
    + "  SUM(o.order_total) as total_spent\n"
    + "FROM\n"
    + "  public.orders o\n"
    + "JOIN\n"
    + "  public.customers c ON o.customer_id ="
    + " c.id\n"
    + "WHERE\n"
    + "  o.order_date >= '2024-01-01'\n"
    + "GROUP BY\n"
    + "  c.customer_name\n"
    + "ORDER BY\n"
    + "  total_spent DESC;"

  const AzureExample: string :=
    "-- This query uses a REPLICATE"
    + " distribution for a large fact table,\n"
    + "-- which might not be optimal for joins"
    + " with other large tables.\n"
    + "-- A HASH distribution on the join key"
    + " could be more efficient.\n"
    + "SELECT\n"
    + "    p.ProductName,\n"
    + "    SUM(s.SalesAmount) AS TotalSales\n"
    + "FROM\n"
    + "    FactInternetSales s\n"
    + "JOIN\n"
    + "    DimProduct p ON s.ProductKey ="
    + " p.ProductKey\n"
    + "GROUP BY\n"
    + "    p.ProductName\n"
    + "ORDER BY\n"
    + "    TotalSales DESC;\n"

  const MySqlExample: string :=
    "-- This query suffers from an N+1"
    + " problem.\n"
    + "-- It fetches posts and then loops to"
    + " fetch comments for each post"
    + " individually.\n"
    + "-- A JOIN or a single IN clause query"
    + " for comments would be better.\n"
    + "SELECT * FROM posts WHERE author_id ="
    + " 123;\n"
    + "-- In application code:\n"
    + "-- for post in posts:\n"
    + "--   SELECT * FROM comments WHERE"
    + " post_id = post.id;"

  const PostgresExample: string :=
    "-- This query performs a text search"
    + " using LIKE with a leading wildcard,\n"
    + "-- which prevents the use of a standard"
    + " B-tree index.\n"
    + "-- A trigram index (pg_trgm) would be"
    + " much more performant.\n"
    + "SELECT\n"
    + "  user_id,\n"
    + "  comment_text\n"
    + "FROM\n"
    + "  user_comments\n"
    + "WHERE\n"
    + "  comment_text LIKE '%optimizing"
    + " performance%';"

  const MongoDbExample: string :=
    "// This aggregation pipeline may be"
    + " inefficient without the proper index.\n"
    + "// An index on { \"address.country\": 1,"
    + " \"registrationDate\": 1 } could improve"
    + " performance.\n"
    + "db.users.aggregate([\n"
    + "  {\n"
    + "    '$match': {\n"
    + "      'address.country': 'Brazil',\n"
    + "      'registrationDate': {\n"
    + "        '$gte': ISODate('2023-01-01T00:0"
    + "0:00.000Z')\n"
    + "      }\n"
    + "    }\n"
    + "  },\n"
    + "  {\n"
    + "    '$group': {\n"
    + "      '_id': '$accountType',\n"
    + "      'count': { '$sum': 1 }\n"
    + "    }\n"
    + "  },\n"
    + "  {\n"
    + "    '$sort': { 'count': -1 }\n"
    + "  }\n"
    + "])"

  const DynamoDbExample: string :=
    "{\n"
    + "  \"TableName\": \"ProductCatalog\",\n"
    + "  \"FilterExpression\": \"Price >"
    + " :price_val\",\n"
    + "  \"ExpressionAttributeValues\": {\n"
    + "    \":price_val\": {\"N\": \"100\"}\n"
    + "  }\n"
    + "}\n"
    + "// This is a Scan operation, which is"
    + " inefficient and costly for large"
    + " tables.\n"
    + "// A Query operation on a Global"
    + " Secondary Index (GSI) on the Price"
    + " attribute would be better.\n"

  const ExampleCode: map<string, string> := map[
    BigQuery := BigQueryExample,
    Snowflake := SnowflakeExample,
    Redshift := RedshiftExample,
    Azure := AzureExample,
    MySql := MySqlExample,
    Postgres := PostgresExample,
    MongoDb := MongoDbExample,
    DynamoDb := DynamoDbExample
  ]

  /** The identifiers of a list of selector entries, in order. */
  function Values(systems: seq<DbSystemOption>): (ids: seq<string>)
    ensures |ids| == |systems|
    ensures forall i :: 0 <= i < |systems| ==> ids[i] == systems[i].value
  {
    if systems == [] then [] else [systems[0].value] + Values(systems[1..])
  }

  /** The identifier is one the selector offers. */
  predicate IsRegistered(id: string) {
    exists i :: 0 <= i < |DatabaseSystems| && DatabaseSystems[i].value == id
  }

  /** `EXAMPLE_CODE[id] || ''`: the example for `id`, or the empty string when
      `id` has none (or its example is empty, which `||` also maps to ""). */
  function ExampleFor(id: string): (q: string)
    ensures id in ExampleCode ==> q == ExampleCode[id]
    ensures id !in ExampleCode ==> q == ""
  {
    if id in ExampleCode && ExampleCode[id] != "" then ExampleCode[id] else ""
  }

  /** The registry has exactly these eight identifiers, in this order. */
  lemma RegistryOrder()
    ensures Values(DatabaseSystems) ==
      ["bigquery", "snowflake", "redshift", "azure", "mysql", "postgres", "mongodb", "dynamodb"]
  {
  }

  /** No identifier is listed twice. */
  lemma RegistryDistinct()
    ensures forall i, j :: 0 <= i < j < |DatabaseSystems| ==> DatabaseSystems[i].value != DatabaseSystems[j].value
  {
  }

  /** The selector offers no identifiers besides the eight. */
  lemma RegisteredIsIdentifier(id: string)
    requires IsRegistered(id)
    ensures || id == BigQuery || id == Snowflake || id == Redshift || id == Azure
            || id == MySql || id == Postgres || id == MongoDb || id == DynamoDb
  {
    var i :| 0 <= i < |DatabaseSystems| && DatabaseSystems[i].value == id;
    assert i < 8;
  }

  /** Each of the eight identifiers has an example. */
  lemma IdentifierHasExample(id: string)
    requires || id == BigQuery || id == Snowflake || id == Redshift || id == Azure
             || id == MySql || id == Postgres || id == MongoDb || id == DynamoDb
    ensures id in ExampleCode
  {
  }

  /** The example map has no keys besides the eight identifiers. */
  lemma ExampleKeyIsIdentifier(id: string)
    requires id in ExampleCode
    ensures || id == BigQuery || id == Snowflake || id == Redshift || id == Azure
            || id == MySql || id == Postgres || id == MongoDb || id == DynamoDb
  {
  }

  /** Each of the eight identifiers is offered by the selector. */
  lemma IdentifierIsRegistered(id: string)
    requires || id == BigQuery || id == Snowflake || id == Redshift || id == Azure
             || id == MySql || id == Postgres || id == MongoDb || id == DynamoDb
    ensures IsRegistered(id)
  {
    if id == BigQuery { assert DatabaseSystems[0].value == id; }
    else if id == Snowflake { assert DatabaseSystems[1].value == id; }
    else if id == Redshift { assert DatabaseSystems[2].value == id; }
    else if id == Azure { assert DatabaseSystems[3].value == id; }
    else if id == MySql { assert DatabaseSystems[4].value == id; }
    else if id == Postgres { assert DatabaseSystems[5].value == id; }
    else if id == MongoDb { assert DatabaseSystems[6].value == id; }
    else { assert DatabaseSystems[7].value == id; }
  }

  /** The examples are keyed by exactly the registry's identifiers. */
  lemma ExampleKeysAreRegistry(id: string)
    ensures id in ExampleCode <==> IsRegistered(id)
  {
    if id in ExampleCode {
      ExampleKeyIsIdentifier(id);
      IdentifierIsRegistered(id);
    }
    if IsRegistered(id) {
      RegisteredIsIdentifier(id);
      IdentifierHasExample(id);
    }
  }

  /** No example is empty. */
  lemma ExampleNonEmpty(id: string)
    requires id in ExampleCode
    ensures ExampleCode[id] != ""
  {
    ExampleKeyIsIdentifier(id);
    if id == BigQuery { assert |ExampleCode[id]| == |BigQueryExample| > 0; }
    else if id == Snowflake { assert |ExampleCode[id]| == |SnowflakeExample| > 0; }
    else if id == Redshift { assert |ExampleCode[id]| == |RedshiftExample| > 0; }
    else if id == Azure { assert |ExampleCode[id]| == |AzureExample| > 0; }
    else if id == MySql { assert |ExampleCode[id]| == |MySqlExample| > 0; }
    else if id == Postgres { assert |ExampleCode[id]| == |PostgresExample| > 0; }
    else if id == MongoDb { assert |ExampleCode[id]| == |MongoDbExample| > 0; }
    else { assert |ExampleCode[id]| == |DynamoDbExample| > 0; }
  }

  /** Switching to any registered dialect yields its non-empty example; any
      other identifier yields "". */
  lemma ExampleForRegistered(id: string)
    ensures IsRegistered(id) ==> ExampleFor(id) == ExampleCode[id] && ExampleFor(id) != ""
    ensures !IsRegistered(id) ==> ExampleFor(id) == ""
  {
    ExampleKeysAreRegistry(id);
    if id in ExampleCode {
      ExampleNonEmpty(id);
    }
  }

  /** The controller's default dialect is the first selector entry and has
      an example. */
  lemma DefaultIsFirstEntry()
    ensures DatabaseSystems[0].value == BigQuery && BigQuery in ExampleCode
  {
  }
}
