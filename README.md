# Conversational query engine over a property-listing CSV — Dafny model

The system answers questions about an uploaded CSV of property listings in
multi-turn chats, in one of two variants:

- the **RAG-mode application** (`app/`) renders each CSV row as a
  "Property Listing -> col: val, …" document, embeds the documents in
  batches of 100 into a flat vector index, and answers a turn from the
  deduplicated nearest documents;
- the **SQL-mode backend** (`backend/`) loads the CSV into one SQLite table
  (sanitised column names, table named after the file), asks a model for a
  SQL query, runs it, and has the model phrase the answer; every other turn
  it schedules a background job that tags the conversation.

Both variants keep conversations in a MongoDB `conversations` collection
keyed by the caller's session id, and users in a `users` collection. The
backend also exposes CRM endpoints over the users.

The model, module by module:

- `Mongo` covers collection semantics. A collection is the sequence of its
  documents in natural order. `find_one`, `update_one` and `delete_one` act
  on the first match. `insert_one` appends and checks nothing.
  `UniqueKeys` is the invariant under which a collection behaves as a map.
- `ConversationSchema`, `UserSchema` and `AppUserSchema` are the records.
  `ChatSchema` holds requests, responses and HTTP outcomes. `Tabular` holds
  the data frame.
- `ConversationStore` has the conversation updates as functions of the
  documents: `$push`, `$set` of the tags, a turn's get-or-create, and the
  two appends that close a turn. It also has the lemmas about them.
- `ChatHistory` is the `role: content` history string both turns build.
- `BackendDatabase` and `AppDatabase` are a `Database` class with the two
  collections as fields.
  - The CRUD modules (`BackendCrudConversation`, `AppCrudConversation`,
    `BackendCrudUser`, `AppCrudUser`) are methods that update those fields.
  - Their lookups are functions that read them.
- `RagService` is the vector knowledge store: a class with `index`,
  `documents` and `isInitialized`. It renders rows, embeds in batches,
  builds the index and retrieves.
- `TextToSqlService` sanitises column names and derives the table name, with
  `basename`/`splitext` semantics. It also has the loader class.
- `BackendChat`, `AppChat` and `BackendCrm` are the endpoints.
  - Each one runs the source's check-then-mutate sequence against a
    `Database`.
  - The model, the embedder, the search, the SQL engine, the classifier and
    the clock are parameters.

Two behaviours of the code are easy to miss:

- The tag update is scheduled when the message count read *before* the
  turn's two appends is a multiple of 4. On a new session that is turns 1,
  3, 5, …, not every fourth message in total.
- A failed SQLite write still leaves `table_name` set to the new name,
  because the name is assigned before the write (not all-or-nothing).

## Model

| member | source | states |
|---|---|---|
| RagService.RAGService.constructor | app/services/rag_service.py:13-16 | A new store has no index and no documents, and is not initialised. It satisfies the store invariant. |
| RagService.RowParts | app/services/rag_service.py:42-45 | Each part is `col: val` for a non-empty cell. Every non-empty cell yields its part, so empty cells are skipped. |
| RagService.Documents | app/services/rag_service.py:41-47 | Exactly one document per row, in row order, so the document count equals the row count. |
| RagService.RenderedRowMentionsCell | app/services/rag_service.py:43-46 | A row's document contains the `col: val` text of each of its non-empty cells. |
| RagService.RenderDocuments | app/services/rag_service.py:38-47 | The nested row/cell loops produce exactly the document list of the frame. |
| RagService.EmbedAll | app/services/rag_service.py:55-60 | One embedding per text, the i-th being the embedding of the i-th text. |
| RagService.EmbedInBatches | app/services/rag_service.py:55-60 | The batch loop (step 100, slices clipped at the end) covers every document once, in order. The result has the length and order of `documents`. |
| RagService.PyIndex | app/services/rag_service.py:84 | Python list indexing. It is defined only for -n <= i < n, and a negative index counts from the end. |
| RagService.Lookup | app/services/rag_service.py:84 | It fails exactly when some hit is out of Python's range. Otherwise entry k is the document that hit k names. |
| RagService.Dedup | app/services/rag_service.py:84 | No duplicates, and exactly the same members as its input: the set the source builds. |
| RagService.RAGService.LoadAndIndexCsv | app/services/rag_service.py:30-67 | See the list after this table. |
| RagService.RAGService.LoadAndIndexCsvAtomic | app/services/rag_service.py:30-67 | The corrected load. A read failure or zero rows changes no field. Otherwise it rebuilds as the source does, and the store invariant is kept. |
| RagService.RAGService.RetrieveContext | app/services/rag_service.py:70-86 | Before initialisation: exactly "Knowledge base is not yet initialized.", and the query is not embedded. Afterwards, an uncaught embedding failure exactly when the query embedding raised; otherwise an IndexError exactly when a hit is out of range. Otherwise the distinct looked-up documents joined by "\n- ", in some order. |
| RagService.SearchOfValidStoreNeverRaises | app/services/rag_service.py:81-84 | With the store invariant, search answers (index positions or -1 padding) never make the lookup raise. |
| RagService.PaddingSelectsLastDocument | app/services/rag_service.py:81-84 | A -1 padding entry puts the last document into the context. |
| RagService.IdenticalDocumentsCollapse | app/services/rag_service.py:84-85 | Hits naming one and the same document give that document alone as the context. |
| RagService.EmptyReuploadRetrieval | app/services/rag_service.py:38-51 | As written: a one-row load, then a header-only re-upload, then a search padded with -1 raises IndexError. |
| RagService.EmptyReuploadRetrievalAtomic | app/services/rag_service.py:38-51 | Corrected: the same sequence returns the first upload's document. |
| TextToSqlService.SanitizedColumns | backend/app/services/text_to_sql_service.py:18 | One sanitised name per column, in column order. |
| TextToSqlService.SanitizeIsPerCharacter | backend/app/services/text_to_sql_service.py:18 | The four chained `replace` calls equal a one-pass rule. Parentheses are dropped, space and `/` become `_`, and every other character is kept in order. |
| TextToSqlService.RemoveCharConcat | backend/app/services/text_to_sql_service.py:18 | Removing a character distributes over concatenation. |
| TextToSqlService.ReferenceIsSafe | backend/app/services/text_to_sql_service.py:18 | The one-pass rule's output has no space, `/`, `(` or `)`. |
| TextToSqlService.SanitizedIsSafe | backend/app/services/text_to_sql_service.py:18 | A sanitised column name contains no space, `/`, `(` or `)`. |
| TextToSqlService.SafeReferenceUnchanged | backend/app/services/text_to_sql_service.py:18 | The one-pass rule leaves a name without those characters as it is. |
| TextToSqlService.SafeNameUnchanged | backend/app/services/text_to_sql_service.py:18 | Sanitising a name that is already safe returns it unchanged. |
| TextToSqlService.SanitizeIdempotent | backend/app/services/text_to_sql_service.py:18 | Sanitising twice gives the same as sanitising once. |
| TextToSqlService.ReferenceLength | backend/app/services/text_to_sql_service.py:18 | The one-pass rule shortens a name by its number of parentheses. |
| TextToSqlService.SanitizeLength | backend/app/services/text_to_sql_service.py:18 | The sanitised length is the original length minus the number of `(` and `)`. |
| TextToSqlService.BaseNameShape | backend/app/services/text_to_sql_service.py:19 | The base name has no `/`, and the path ends with it. |
| TextToSqlService.SplitExtRootShape | backend/app/services/text_to_sql_service.py:19 | Cutting the extension keeps a prefix. What is removed is nothing, or one `.` followed by dot-free text. |
| TextToSqlService.TableNameShape | backend/app/services/text_to_sql_service.py:19 | The table name is the base name with at most its last extension removed. It never contains `/`. |
| TextToSqlService.CsvUploadTableName | backend/app/services/text_to_sql_service.py:19 | `dir/name.csv` gives table `name` when `name` has no `/` and is not dots only. Only the last dot is split, so `a.b.csv` gives `a.b`. |
| TextToSqlService.LeadingDotIsNotExtension | backend/app/services/text_to_sql_service.py:19 | For a dot-file such as `dir/.listings`, the leading dot is not an extension. The table name is the whole file name. |
| TextToSqlService.TextToSQLService.constructor | backend/app/services/text_to_sql_service.py:10-13 | Remembers the database path. No table name yet. The database file's existing tables are kept. |
| TextToSqlService.TextToSQLService.LoadCsvToSql | backend/app/services/text_to_sql_service.py:15-26 | See the list after this table. |
| TextToSqlService.TextToSQLService.GetDbUri | backend/app/services/text_to_sql_service.py:28-29 | The URI is `sqlite:///` followed by exactly the database path. |
| ConversationStore.PushMessageEffect | backend/app/crud/crud_conversation.py:14-15 | `$push` appends the message at the end of the session's record and changes nothing else. On an unknown session it changes nothing (no upsert). |
| ConversationStore.SetTagsEffect | backend/app/crud/crud_conversation.py:17-19 | `$set` replaces the session's whole tag list and keeps its messages. It changes no other record, and nothing at all on an unknown session. |
| ConversationStore.GetOrCreateFinds | backend/app/api/endpoints/chat.py:33-36 | After get-or-create, the session's lookup returns the stored record, or else the newly created one. Other sessions are unchanged. |
| ConversationStore.CompletedTurnEffect | backend/app/api/endpoints/chat.py:58-61 | A completed turn leaves the session's record with its previous messages, then the user's message, then the reply. Every other field and every other session is unchanged. |
| ConversationStore.TurnKeepsIdsUnique | backend/app/api/endpoints/chat.py:33-61 | Get-or-create and the two appends keep session ids unique. |
| ConversationStore.PushKeepsIdsUnique | backend/app/crud/crud_conversation.py:14-15 | `$push` keeps session ids unique. |
| ConversationStore.ResetForgetsSession | backend/app/api/endpoints/chat.py:77-83 | With unique ids, the deleted session is gone. The next turn starts from a new empty record; other sessions are unchanged. |
| ConversationStore.MessagesAfterTurns | backend/app/api/endpoints/chat.py:58-61 | From an unknown session, n completed turns leave exactly 2n messages on the record. |
| Mongo.FirstIndex | backend/app/crud/crud_conversation.py:10-12 | The position of the first document with the key, or none exactly when no document has it. |
| Mongo.FindOne | backend/app/crud/crud_conversation.py:10-12 | A stored document with the key, or none exactly when no document has it. |
| Mongo.Find | backend/app/crud/crud_conversation.py:21-26 | Every returned document is stored and matches. Every matching stored document is returned. |
| Mongo.FindOneAfterInsert | backend/app/crud/crud_conversation.py:5-12 | After `insert_one(c)`, a lookup by `c.id` returns `c` unless an older record already had that id. |
| Mongo.FindOneAfterReplace | backend/app/crud/crud_conversation.py:14-19 | Replacing the first match with a same-key document changes only that key's lookup. |
| Mongo.DeleteOneUnique | backend/app/api/endpoints/chat.py:82 | With unique keys, `delete_one` removes the key, keeps the other lookups, and keeps keys unique. |
| Mongo.InsertFreshKeepsUnique | backend/app/crud/crud_user.py:17 | Inserting a document whose key is not yet stored keeps keys unique. |
| Mongo.ReplaceKeepsUnique | backend/app/crud/crud_user.py:24 | Replacing a document by one with the same key keeps keys unique. |
| Mongo.FindOneUnique | backend/app/crud/crud_user.py:11 | With unique keys, a lookup by a document's key returns that document. |
| Mongo.FirstIndexOnlyReadsKeys | backend/app/crud/crud_conversation.py:14-19 | The first match depends only on the keys of the documents. |
| ChatHistory.HistoryLines | backend/app/api/endpoints/chat.py:38 | One `role: content` line per message, oldest first. |
| ChatHistory.HistoryStringAppend | backend/app/api/endpoints/chat.py:38 | Appending a message extends the history by a newline and that message's line. The empty history gets just the line. |
| ChatHistory.HistoryMentionsEveryMessage | backend/app/api/endpoints/chat.py:38 | Every message's line appears in the history string. |
| BackendCrudConversation.CreateConversation | backend/app/crud/crud_conversation.py:5-8 | The record is appended to the collection and returned unchanged. |
| BackendCrudConversation.GetConversationBySessionId | backend/app/crud/crud_conversation.py:10-12 | `None` exactly when no record has the id. Otherwise a stored record with that id. |
| BackendCrudConversation.AddMessageToConversation | backend/app/crud/crud_conversation.py:14-15 | The collection becomes the `$push` of the message onto the session's record. |
| BackendCrudConversation.UpdateConversationTags | backend/app/crud/crud_conversation.py:17-19 | The collection becomes the `$set` of the tags on the session's record. |
| BackendCrudConversation.GetConversationsByUserId | backend/app/crud/crud_conversation.py:21-26 | The cursor loop returns exactly `find` by user id, in natural order. |
| AppCrudConversation.CreateConversation | app/crud/crud_conversation.py:5-13 | The record is appended to the collection and returned unchanged. |
| AppCrudConversation.GetConversationBySessionId | app/crud/crud_conversation.py:15-20 | `None` exactly when no record has the id. Otherwise a stored record with that id. |
| AppCrudConversation.AddMessageToConversation | app/crud/crud_conversation.py:22-27 | The collection becomes the `$push` of the message onto the session's record. |
| AppCrudConversation.GetConversationsByUserId | app/crud/crud_conversation.py:29-35 | The cursor loop returns exactly `find` by user id, in natural order. |
| BackendCrudUser.GetUserByEmail | backend/app/crud/crud_user.py:6-8 | `None` exactly when no user has the email. Otherwise a stored user with it. |
| BackendCrudUser.GetUserById | backend/app/crud/crud_user.py:10-12 | `None` exactly when no user has the id. Otherwise a stored user with it, served without the hash. |
| BackendCrudUser.CreateUser | backend/app/crud/crud_user.py:14-18 | See the list after this table. |
| BackendCrudUser.UpdateData | backend/app/crud/crud_user.py:21 | The update map holds exactly the non-`None` fields of the request, with their values. |
| BackendCrudUser.UpdateUser | backend/app/crud/crud_user.py:20-26 | See the list after this table. |
| BackendCrudUser.EmptyUpdateIffAllNone | backend/app/crud/crud_user.py:21-23 | The update map is empty exactly when every field of the request is `None`. |
| BackendCrudUser.PartialUpdateSetsGivenFields | backend/app/crud/crud_user.py:21-24 | `$set` changes exactly the given fields. Email, id and hash are untouched. |
| BackendCrudUser.SetByIdEffect | backend/app/crud/crud_user.py:24-26 | `update_one` by id changes only that user and keeps every email. The refetch sees the updated document; a missing id changes nothing. |
| BackendCrudUser.SetByIdKeepsEmailsUnique | backend/app/crud/crud_user.py:24 | Updates keep emails unique. |
| AppCrudUser.GetUserByEmail | app/crud/crud_user.py:5-10 | `None` exactly when no user has the email. Otherwise a stored user with it. |
| AppCrudUser.GetUserById | app/crud/crud_user.py:12-17 | `None` exactly when no user has the id. Otherwise a stored user with it. |
| AppCrudUser.CreateUser | app/crud/crud_user.py:19-23 | One record with the given fresh id is inserted and returned. |
| AppCrudUser.UpdateData | app/crud/crud_user.py:27 | The update map holds exactly the non-`None` fields among name, company and preferences. |
| AppCrudUser.UpdateUser | app/crud/crud_user.py:25-36 | With nothing to set, no change. Otherwise `$set` by id. The result is the refetched user, or `None` for a missing user. |
| AppCrudUser.EmptyUpdateIffAllNone | app/crud/crud_user.py:27-29 | The update map is empty exactly when name, company and preferences are all `None`. |
| AppCrudUser.PartialUpdateSetsGivenFields | app/crud/crud_user.py:27-31 | `$set` changes exactly the given fields. Email and id are untouched. |
| AppCrudUser.SetByIdEffect | app/crud/crud_user.py:31-36 | `update_one` by id changes only that user and keeps every email. The refetch sees the updated document. |
| BackendChat.SqlPromptMentions | backend/app/api/endpoints/chat.py:46-48 | The SQL prompt contains the whole schema, the whole history and the quoted question. |
| BackendChat.TwoPerTurnCadence | backend/app/api/endpoints/chat.py:65 | A count of 2n passes the every-4 test exactly when n is even. |
| BackendChat.TagsScheduledOnOddTurns | backend/app/api/endpoints/chat.py:65-66 | On a new session, turn n schedules a tag update exactly when n is odd. |
| BackendChat.BackgroundTasks.AddTask | backend/app/api/endpoints/chat.py:66 | The session id is queued after the tasks already pending. |
| BackendChat.UpdateTagsInBackground | backend/app/api/endpoints/chat.py:13-22 | A missing record, or an empty classifier answer, changes nothing. Otherwise the tags become the classifier's answer for the refetched history. |
| BackendChat.HandleChat | backend/app/api/endpoints/chat.py:24-75 | See the list after this table. |
| BackendChat.ResetConversation | backend/app/api/endpoints/chat.py:77-83 | An unknown session gives 404 "Session ID not found." with no change. Otherwise the record is deleted and the cleared message returned. |
| AppChat.SystemPromptMentions | app/api/endpoints/chat.py:37-46 | The system prompt contains the whole history, the whole retrieved context and the question. |
| AppChat.HandleChat | app/api/endpoints/chat.py:13-63 | See the list after this table. |
| AppChat.ResetConversation | app/api/endpoints/chat.py:65-77 | An unknown session gives 404 "Session ID not found." with no change. Otherwise the record is deleted and the cleared message returned. |
| BackendCrm.CreateNewUserAsWritten | backend/app/api/endpoints/crm.py:11-16 | As written: 400 "Email already registered." on a known email. A fresh email raises (500) and nothing is stored. |
| BackendCrm.FirstSignupAsWritten | backend/app/api/endpoints/crm.py:11-16 | As written, the first sign-up on an empty collection fails with 500 and stores nobody. |
| BackendCrm.CreateNewUser | backend/app/api/endpoints/crm.py:11-16 | Corrected: 400 with no change on a known email. Otherwise the user is stored with the hash and returned without it. |
| BackendCrm.FirstSignup | backend/app/api/endpoints/crm.py:11-16 | Corrected, the first sign-up stores exactly that user and returns it. |
| BackendCrm.SignupKeepsEmailsUnique | backend/app/api/endpoints/crm.py:11-16 | One sign-up keeps emails unique, and the email is registered afterwards. |
| BackendCrm.SignupsKeepEmailsUnique | backend/app/api/endpoints/crm.py:11-16 | Over any sequence of sign-ups, no two stored users share an email. |
| BackendCrm.GetUserByEmailEndpoint | backend/app/api/endpoints/crm.py:19-25 | 404 "User with this email not found." exactly when no user has the email. Otherwise a stored user with it. |
| BackendCrm.UpdateExistingUser | backend/app/api/endpoints/crm.py:28-33 | An unknown id gives 404 "User not found." with no change. Otherwise the partial update is applied and returned without the hash; emails stay unique. |
| BackendCrm.GetUserConversations | backend/app/api/endpoints/crm.py:35-40 | An unknown user gives 404 "User not found.". Otherwise exactly that user's conversations. |

`RagService.RAGService.LoadAndIndexCsv` (`app/services/rag_service.py:30-67`) is the load as written:

- A read failure changes no field.
- Otherwise `documents` is the new rendering.
- Zero rows keep the old index and the old flag.
- Otherwise the index holds one vector per document and the store is initialised.
- An empty re-upload into an initialised store breaks the store invariant.

`TextToSqlService.TextToSQLService.LoadCsvToSql` (`backend/app/services/text_to_sql_service.py:15-26`):

- It returns true exactly when both the read and the write succeed.
- A read failure leaves `table_name` unchanged.
- Any successful read sets `table_name` to the file's table name, even if the write then fails.
- A failure leaves the tables as they were.
- Success replaces that table with the sanitised frame.

`BackendCrudUser.CreateUser` (`backend/app/crud/crud_user.py:14-18`):

- The stored document holds the hash of the password, never the password itself.
- The returned user is the stored document without the hash.

`BackendCrudUser.UpdateUser` (`backend/app/crud/crud_user.py:20-26`):

- With nothing to set, nothing changes.
- Otherwise the update is a `$set` by id.
- The result is the refetched user without the hash.
- A missing user gives `None` and no change.

`BackendChat.HandleChat` (`backend/app/api/endpoints/chat.py:24-75`):

- It gets or creates the session's record.
- A schema containing "No schema loaded" gives 400 "Knowledge base not loaded. Please upload a CSV file first.". The created record stays stored.
- Otherwise:
  - The SQL is generated from the prompt holding the pre-turn history.
  - The user's message and then the reply are appended.
  - The reply and the session id are returned.
  - The tag task is queued exactly when the pre-turn message count is a multiple of 4.

`AppChat.HandleChat` (`app/api/endpoints/chat.py:13-63`):

- An unknown user gives 404 "User not found. Please create a user first." with no change.
- Otherwise it gets or creates the session's record.
- A retrieval error gives 500, and the created record stays stored. The error is either an out-of-range hit or a failed query embedding. Neither is caught, and no fallback text is produced.
- Otherwise:
  - The model receives the system prompt, built from the history, the context and the question, plus the prior messages only.
  - The user's message and then the reply are appended.
  - The reply and the session id are returned.
- An uninitialised store does not stop the turn: its placeholder text is the context.

## Left out

- OpenAI chat, embedding and tagging calls are parameters to the model (`llm`, `embed`, `classify`, `generateSql`, `synthesize`). The same goes for the error fallbacks in both `llm_service.py` files; they are just other answers of those parameters. Failures of the embedding call during a load are not modelled. At retrieval they are: `get_embedding` (`app/services/rag_service.py:18-22`) catches nothing, so a failed query embedding is `RetrieveContext`'s `EmbeddingFailed` answer, and the app chat turn answers 500 after its get-or-create.
- The FAISS `IndexFlatL2` search and float32 arithmetic are left out. The search answer is the parameter `search` (`None` when the query embedding raised, otherwise the hits), independent of the query. The query's newline-to-space rewrite before embedding is not modelled. The index stores the embedding vectors as given.
- `pd.read_csv`, `astype(str)` and `fillna('')` are left out. A read is an `Option<Frame>` of string cells, with `None` when it raises, and a rectangular frame is required (pandas guarantees it).
- SQLAlchemy/SQLite `to_sql` is left out. The write outcome is the boolean `writeSucceeds`, and a failed write is assumed to leave the previous table in place.
- `get_schema`, `execute_sql_query`, `generate_sql_from_prompt` and `synthesize_response_from_sql` are called by the backend chat but defined in no file of this model's scope.
  - `backend/app/services/text_to_sql_service.py` defines neither `get_schema` nor `execute_sql_query`.
  - `backend/app/api/endpoints/chat.py:7` imports the other two from `app.services.llm_service`. `backend/app/services/llm_service.py` defines only `generate_tags_for_conversation`, so that import does not resolve.
  - The schema text and the three functions are parameters of `BackendChat.HandleChat`.
- `processing_time` in the chat responses is left out: a wall-clock float.
- `datetime.utcnow` is the parameter `now`. `uuid4` is the parameter `newId`. `get_password_hash` (from `app.core.security`, which is not part of this model) is the parameter `hash`.
- FastAPI background execution is left out. `BackgroundTasks` records which tag jobs are queued, and `UpdateTagsInBackground` is what one job does when it runs, at whatever later point.
- Concurrency between requests and MongoDB's own `_id` field are left out. Requests run one after another.
- Collections are sequences in natural order, not maps from id to record. That keeps the first-match behaviour of `find_one`, `update_one` and `delete_one` when ids repeat. The map behaviour is recovered through `UniqueKeys`, which get-or-create, sign-up and updates preserve.
- Pydantic validation and `response_model` filtering are left out.
  - `EmailStr` checks are not modelled.
  - `backend/app/api/endpoints/crm.py` imports `UserInDB`, which `backend/app/schemas/user.py` does not define.
  - The CRM endpoints are modelled as if that import named the stored user type. Their results are served as the CRUD layer returns them.
- The upload endpoints in both `documents.py` files are not part of this model: temporary files, the `.csv` suffix check, and the app variant ignoring the load result. The same goes for the LangChain agent, the database session wiring, configuration and the frontend.
- `TextToSqlService.BaseName` and `TextToSqlService.SplitExtRoot` follow POSIX `os.path` (`posixpath`). Windows `ntpath`, which also splits at `\` and after a drive prefix, is not modelled.
- Logging is left out: the logger calls at `app/services/rag_service.py:35,50,53,68` and `backend/app/services/text_to_sql_service.py:20-25`, and the `print` at `backend/app/api/endpoints/chat.py:22`. None changes state.
- `TextToSQLService` keeps no SQLAlchemy engine object. Its URL is the one `GetDbUri` returns.
- `RagService.RAGService.RetrieveContext`: the source joins a Python `set`, whose order is unspecified. The contract fixes only the members (each distinct looked-up document once) and the separator, not the order.

## Findings

| source | as written | input that shows it | evidently intended | confidence | as-written member | corrected member |
|---|---|---|---|---|---|---|
| app/services/rag_service.py:38-51 | `documents` is cleared before the emptiness check, so a re-upload with no rows returns early. `is_initialized` stays true and the old index stays filled, but `documents` is empty. | Load a CSV with one row, then a CSV with a header and no rows, then retrieve. The 15-result search answers `[0, -1, …]` and `self.documents[0]` raises IndexError. The chat turn then fails with 500. | An upload with no rows leaves the previous knowledge base intact. | not executed | RagService.EmptyReuploadRetrieval | RagService.EmptyReuploadRetrievalAtomic |
| backend/app/api/endpoints/crm.py:16 | `create_user(db=db, user=user)` passes the request as `user`, but `backend/app/crud/crud_user.py:14` names the parameter `user_in`. Every call raises TypeError. | POST `/users` with an email not yet registered: the response is 500 and no user is stored. | The new user is hashed, stored and returned. | not executed | BackendCrm.FirstSignupAsWritten | BackendCrm.FirstSignup |
