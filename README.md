# Chat storage service: application layer in Dafny

This project models the storage side of a chat backend. It covers:

- the pipeline that validates, stores, counts and publishes each incoming message;
- get-or-create of a chat between users;
- cursor-paginated reading of a chat's messages;
- propagation of a user's new profile into their chats;
- listing of a user's active chats;
- the two document collections behind them, chats and messages.

The collections are in-memory tables. Each is a sequence of documents in natural (insertion) order. Each document carries the native key the store gave it. Keys are naturals that strictly increase on insert. The string form of a key is its decimal numeral. Parsing a string that is not such a numeral fails, as `ObjectId(s)` raises on an invalid string.

The repositories and the use cases are classes:

- methods that write change only what their `modifies` clause names;
- their postconditions give the new table as a pure function of the old one;
- read-only methods are proved equal to a pure specification function.

The lemmas state the properties of those functions:

- acceptance exactly when the message is new, the chat exists and the participants match;
- message processing keeps each chat counter equal to the number of the chat's stored messages;
- pagination with no gap and no overlap;
- idempotent, order-insensitive chat creation;
- idempotent profile propagation;
- the `from_dict` projection.

Modules, one per file:

- `Wrappers` holds `Option`, `Result` and the error kinds.
- `Keys` holds native keys and their string form.
- `Records` holds untyped records and `from_dict`.
- `ChatEntity` and `MessageEntity` hold the entities.
- `ChatsStore` and `MessagesStore` hold the repositories.
- `ProcessMessage`, `GetMessages`, `CreateChat`, `UpdateChatRelatedUser` and `GetChats` hold the use cases.

## Model

| member | source | states |
|---|---|---|
| Keys.KeyString | backend/infrastructure/database/repositories/messages.py:54 | `str(key)` is a digit string without leading zeros, one digit exactly for keys below ten |
| Keys.ParseKey | backend/infrastructure/database/repositories/messages.py:64 | `ObjectId(s)` succeeds exactly on the strings that are the form of a key |
| Keys.ParseKeyString | backend/infrastructure/database/repositories/messages.py:54-64 | parsing the string form of a key gives the key back |
| Keys.KeyStringParse | backend/infrastructure/database/repositories/chats.py:45 | every string that parses is the string form of the key it names |
| Keys.KeyStringInjective | backend/infrastructure/database/repositories/chats.py:45 | distinct keys have distinct string forms, so an `id` names one document |
| Records.FieldNames | backend/interface_adapters/shared_utils/add_from_dict.py:15 | the set of names is exactly the dataclass's field names |
| Records.Incoming | backend/interface_adapters/shared_utils/add_from_dict.py:16 | the projection keeps exactly the input keys that are fields, with their values |
| Records.Construct | backend/interface_adapters/shared_utils/add_from_dict.py:17 | construction succeeds iff every field is given or has a default; the instance has every field, keeps given values and takes its default for every field not given; failure is MissingField |
| Records.FromDictSpec | backend/interface_adapters/shared_utils/add_from_dict.py:14-17 | `from_dict` succeeds iff every field without a default is a key of the input; extra keys are ignored; field values are kept unchanged; a field absent from the input takes its default |
| Records.IncomingIdempotent | backend/interface_adapters/shared_utils/add_from_dict.py:16 | projecting an already projected record changes nothing |
| Records.FromDictOfInstance | backend/interface_adapters/shared_utils/add_from_dict.py:14-17 | `from_dict` of an instance's own fields gives the same instance |
| Records.OutgoingMessageFields | backend/interface_adapters/outgoing_dtos/message.py:12-23 | the outgoing message record has twelve fields; only the last, `reject_reason`, has a default, and that default is None |
| Records.OutgoingMessageFieldNames | backend/interface_adapters/outgoing_dtos/message.py:12-23 | the outgoing message record's field names are exactly `id`, `client_message_id`, `chat_id`, `sender_id`, `recipient_id`, `status`, `sent_at`, `delivered_at`, `body`, `is_edited`, `is_deleted`, `reject_reason` |
| Records.ChatOutFields | backend/interface_adapters/outgoing_dtos/chat.py:11-12 | the outgoing chat record's field names are exactly `id` and `related_users`, two fields, neither with a default |
| ChatEntity.InsertById | backend/domain/entities/chat.py:45 | inserting into a list sorted by id keeps it sorted and adds exactly that profile |
| ChatEntity.SortById | backend/domain/entities/chat.py:45 | `sorted(..., key=id)` is ascending by id and a permutation of its input |
| ChatEntity.Create | backend/domain/entities/chat.py:34-51 | a new chat has no id and no messages; its participants are the input profiles, sorted ascending by id |
| ChatEntity.SortSortedIsIdentity | backend/application/use_cases/create_chat.py:65 | re-sorting a list already sorted by id leaves it unchanged |
| ChatEntity.SortedPermutationsEqual | backend/domain/entities/chat.py:45 | two id-sorted lists with the same profiles, where ids identify profiles, are equal |
| ChatEntity.DistinctIdsIdentify | backend/domain/entities/chat.py:45 | distinct participant ids identify the profiles |
| ChatEntity.CreatePermutationInvariant | backend/domain/entities/chat.py:45-51 | two orderings of the same profiles, where ids identify profiles, give the same chat |
| ChatEntity.RepeatedIdBreaksInvariance | backend/domain/entities/chat.py:45 | with two different profiles under one id, the input order shows in the created chat |
| ChatEntity.ProfileValue | backend/domain/entities/chat.py:32 | a participant becomes a record with exactly the keys `id`, `username`, `email`, `avatar_url`, its `id` entry holding the participant's id |
| ChatEntity.ProfilesValue | backend/domain/entities/chat.py:32 | the participants become a list whose i-th item is the record of the i-th participant |
| ChatEntity.Representation | backend/domain/entities/chat.py:22-32 | `asdict(chat)` has exactly the keys `id`, `related_users`, `messages_count`, holding the chat's values |
| ChatEntity.ChatOutFromStored | backend/interface_adapters/controllers/create_chat.py:51-53 | the outgoing chat record built from a stored chat document keeps its id and participants and drops `_id` and the counter |
| MessageEntity.ReasonTextInjective | backend/domain/value_objects/reject_reason.py:8-10 | the three rejection reasons have distinct published strings |
| MessageEntity.Create | backend/application/use_cases/process_message.py:54-58 | the entity built from the payload has the payload's fields, no id, status pending and no rejection reason |
| MessageEntity.Reject | backend/application/use_cases/process_message.py:77 | rejection sets the status and the reason and changes no other field |
| MessageEntity.RejectOverwrites | backend/application/use_cases/process_message.py:60-64 | a second rejection replaces the first reason |
| MessageEntity.RepresentationFields | backend/interface_adapters/outgoing_dtos/message.py:12-23 | the message representation has exactly the outgoing record's fields |
| MessageEntity.OutgoingFromStored | backend/interface_adapters/controllers/get_messages.py:38-44 | the outgoing record built from a stored message document is the message's representation: `_id` is dropped and no field is missing |
| ChatsStore.FirstMatch | backend/infrastructure/database/repositories/chats.py:57 | the position of the first matching document in natural order, or none when no document matches |
| ChatsStore.FindOne | backend/infrastructure/database/repositories/chats.py:57 | `find_one` returns a stored matching document exactly when one exists |
| ChatsStore.Find | backend/infrastructure/database/repositories/chats.py:69-70 | `find` returns all and only the matching documents |
| ChatsStore.WithIncrementedCount | backend/infrastructure/database/repositories/chats.py:79 | `$inc` adds one to the counter of the first chat with that id and to nothing else; no-op without a match |
| ChatsStore.WithId | backend/infrastructure/database/repositories/chats.py:45 | `$set id` changes only the id of the document with that key |
| ChatsStore.FirstUser | backend/infrastructure/database/repositories/chats.py:85 | the position of the first participant with that id, or none when the user is absent |
| ChatsStore.ReplaceFirstUser | backend/infrastructure/database/repositories/chats.py:85 | the positional `$` replaces exactly the first participant entry with that id |
| ChatsStore.PropagateProfile | backend/infrastructure/database/repositories/chats.py:81-85 | `update_many` changes only chats with the user, only in that entry; keys, ids, counters and list lengths are kept |
| ChatsStore.KeyOrder | backend/infrastructure/database/repositories/chats.py:36 | in a table in insertion order, key order is position order |
| ChatsStore.IdNamesOneChat | backend/infrastructure/database/repositories/chats.py:45-57 | when every id is its own key's form, at most one chat answers to an id |
| ChatsStore.IncrementNamedChat | backend/infrastructure/database/repositories/chats.py:72-79 | the increment reaches exactly the chats whose id is the given one |
| ChatsStore.UnassignedChatNotFound | backend/infrastructure/database/repositories/chats.py:57 | a chat whose id is still None is not found by any id |
| ChatsStore.ReplaceKeepsOrder | backend/infrastructure/database/repositories/chats.py:85 | replacing a participant by a profile with the same id keeps the id order |
| ChatsStore.ReplaceIdempotent | backend/infrastructure/database/repositories/chats.py:85 | replacing twice with the same profile equals replacing once |
| ChatsStore.PropagateIdempotent | backend/infrastructure/database/repositories/chats.py:85 | propagating the same profile twice equals propagating it once |
| ChatsStore.PropagateKeepsOrder | backend/infrastructure/database/repositories/chats.py:85 | propagation keeps every chat's participants sorted by id |
| ChatsStore.ChatsRepository.constructor | backend/infrastructure/database/repositories/chats.py:17-24 | a new repository holds an empty, valid table |
| ChatsStore.ChatsRepository.GetOrCreateChat | backend/infrastructure/database/repositories/chats.py:26-36 | a match is returned and nothing changes; otherwise, with upsert, the insert document is stored once under a fresh key and returned |
| ChatsStore.ChatsRepository.UpdateId | backend/infrastructure/database/repositories/chats.py:38-45 | a string that names no key fails and changes nothing; otherwise only that document's id is set |
| ChatsStore.ChatsRepository.GetChat | backend/infrastructure/database/repositories/chats.py:47-57 | the first chat whose `id` field is the given string, read-only |
| ChatsStore.ChatsRepository.GetChats | backend/infrastructure/database/repositories/chats.py:59-70 | all matching chats, read-only |
| ChatsStore.ChatsRepository.IncrementMessagesCount | backend/infrastructure/database/repositories/chats.py:72-79 | the table becomes the counter-incremented table; keys are unchanged |
| ChatsStore.ChatsRepository.UpdateRelatedUser | backend/infrastructure/database/repositories/chats.py:81-85 | the table becomes the profile-propagated table |
| MessagesStore.Selected | backend/infrastructure/database/repositories/messages.py:80 | the matching documents, in ascending key order |
| MessagesStore.Reverse | backend/infrastructure/database/repositories/messages.py:80 | `sort({'_id': -1})` of an ascending table is its reverse |
| MessagesStore.ChatMessagesPage | backend/infrastructure/database/repositories/messages.py:69-81 | at most `messages_limit` (10) matching stored messages, keys strictly descending; a left-out match means the page is full and the match is older than every message of the page |
| MessagesStore.NewestFirst | backend/infrastructure/database/repositories/messages.py:80 | the first n of the reversed table descend, and every document left out is older than the last one taken |
| MessagesStore.KeyIndex | backend/infrastructure/database/repositories/messages.py:64 | the position holding a key, or none when no document has it |
| MessagesStore.WithId | backend/infrastructure/database/repositories/messages.py:63-67 | `$set id` changes only the id of the document with that key |
| MessagesStore.KeyOrder | backend/infrastructure/database/repositories/messages.py:80 | in an ascending table, key order is position order |
| MessagesStore.IncreasingSameElementsEqual | backend/infrastructure/database/repositories/messages.py:80 | two ascending tables with the same documents are equal |
| MessagesStore.MessagesRepository.constructor | backend/infrastructure/database/repositories/messages.py:20-27 | a new repository holds an empty, valid table |
| MessagesStore.MessagesRepository.MessageExists | backend/infrastructure/database/repositories/messages.py:29-41 | true iff some stored message has that client message id |
| MessagesStore.MessagesRepository.CreateMessage | backend/infrastructure/database/repositories/messages.py:43-54 | exactly one document is appended under a fresh key; the returned string parses to that key |
| MessagesStore.MessagesRepository.UpdateId | backend/infrastructure/database/repositories/messages.py:56-67 | a string that names no key fails; otherwise only that document's id is set, and the document after the update is returned |
| MessagesStore.MessagesRepository.GetChatMessages | backend/infrastructure/database/repositories/messages.py:69-81 | the page described by `ChatMessagesPage`, read-only |
| MessagesStore.MessagesRepository.PreviousMessagesExist | backend/infrastructure/database/repositories/messages.py:83-95 | true iff any stored message, of any chat, has a smaller key; fails iff the string names no key |
| ProcessMessage.Publisher.SendMessage | backend/infrastructure/rabbitmq/rabbitmq_manager.py:84-93 | publishing appends the record to the outbox |
| ProcessMessage.ParticipantIds | backend/application/use_cases/process_message.py:102 | the set of the participants' ids |
| ProcessMessage.AcceptedExactly | backend/application/use_cases/process_message.py:41-108 | a message is accepted iff its client id is new, a chat with its chat id exists, and that chat's participant ids are exactly {sender, recipient} |
| ProcessMessage.DuplicateReported | backend/application/use_cases/process_message.py:60-93 | Duplicated is reported iff the client id is taken and the chat exists; a missing chat is always reported as InvalidChatId |
| ProcessMessage.CountAppend | backend/application/use_cases/process_message.py:110-124 | storing one message adds one to the count of its chat only |
| ProcessMessage.ProcessKeepsInvariants | backend/application/use_cases/process_message.py:41-52 | processing keeps each chat's counter equal to its number of stored messages, keeps client ids unique, and keeps chat keys and ids |
| ProcessMessage.ResubmissionRejected | backend/application/use_cases/process_message.py:73-78 | after a message is accepted, a message with the same client id and chat is rejected as Duplicated and changes no table |
| ProcessMessage.AcceptedCarriesKey | backend/application/use_cases/process_message.py:110-118 | an accepted message is stored and published with the string form of its key as id, pending and not rejected |
| ProcessMessage.ProcessMessageUseCase.constructor | backend/application/use_cases/process_message.py:19-39 | the use case holds the payload, the repositories and the publisher, and no chat yet |
| ProcessMessage.ProcessMessageUseCase.Prepare | backend/application/use_cases/process_message.py:54-58 | the message becomes the entity built from the payload |
| ProcessMessage.ProcessMessageUseCase.ValidateMessage | backend/application/use_cases/process_message.py:66-80 | passes iff the client id is not stored; otherwise the message is rejected as Duplicated |
| ProcessMessage.ProcessMessageUseCase.ValidateChat | backend/application/use_cases/process_message.py:82-93 | passes iff a chat has the chat id, and keeps that chat; otherwise the message is rejected as InvalidChatId |
| ProcessMessage.ProcessMessageUseCase.Validate | backend/application/use_cases/process_message.py:60-64 | both checks run; the message passes iff both pass; a missing chat's reason overwrites a duplicate's; the chat found is kept, and with none found the kept chat is unchanged |
| ProcessMessage.ProcessMessageUseCase.EnforcePermissionPolicy | backend/application/use_cases/process_message.py:95-108 | passes iff the chat's participant id set equals {sender, recipient}; otherwise NotRelatedToChat |
| ProcessMessage.ProcessMessageUseCase.CreateMessage | backend/application/use_cases/process_message.py:110-118 | one document is appended under a fresh key; its id and the message's id become that key's string form |
| ProcessMessage.ProcessMessageUseCase.IncrementMessagesCount | backend/application/use_cases/process_message.py:120-124 | the chat table becomes the table with the message's chat counted once more |
| ProcessMessage.ProcessMessageUseCase.SendMessage | backend/application/use_cases/process_message.py:126-130 | the message's representation is published once |
| ProcessMessage.ProcessMessageUseCase.Execute | backend/application/use_cases/process_message.py:41-52 | exactly one publication, of the outcome of `Process`; tables change only on acceptance, by one stored message and one counted message |
| GetMessages.MakeFilters | backend/application/use_cases/get_messages.py:41-59 | no cursor: chat and user only; a cursor fails iff it names no key; otherwise the filter reads below the key the cursor names |
| GetMessages.PermissionExactly | backend/application/use_cases/get_messages.py:61-78 | reading is permitted iff a chat has the id and the user is a participant; a missing chat is its own failure |
| GetMessages.BelowIsPrefix | backend/application/use_cases/get_messages.py:57 | the matches below the key of the i-th match are exactly the first i matches |
| GetMessages.CursorResumes | backend/application/use_cases/get_messages.py:41-110 | what remains from a position is the page served there followed by what remains below its last message; an empty page means nothing remains |
| GetMessages.ResultIsPage | backend/application/use_cases/get_messages.py:112-128 | a successful result is the outgoing data of the page served under the cursor's filter |
| GetMessages.CursorFedBack | backend/application/use_cases/get_messages.py:57 | a key's string form as cursor is accepted and reads below that key |
| GetMessages.NextPageResumes | backend/application/use_cases/get_messages.py:100-128 | feeding a non-empty page's cursor back is accepted, and the pages so far plus what remains are all the messages, with no gap and no overlap |
| GetMessages.EmptyPageCursorRejected | backend/application/use_cases/get_messages.py:94-103 | an empty page has cursor '' and no older messages; that cursor fed back fails as InvalidObjectId |
| GetMessages.NothingOlder | backend/infrastructure/database/repositories/messages.py:93 | with no stored message below a key, nothing remains below it |
| GetMessages.NoPreviousMeansComplete | backend/application/use_cases/get_messages.py:104-108 | when the flag says no older messages exist, the page holds every message the cursor led to |
| GetMessages.ExampleSelection | backend/infrastructure/database/repositories/messages.py:80 | in the example tables only the message of chat "c" is selected |
| GetMessages.ExamplePage | backend/infrastructure/database/repositories/messages.py:80 | in the example tables the page is that message alone |
| GetMessages.ExamplePermission | backend/application/use_cases/get_messages.py:70 | in the example tables user 7 may read chat "c" |
| GetMessages.PreviousFlagCountsOtherChats | backend/infrastructure/database/repositories/messages.py:93 | the older-messages flag can be set by another chat's message while the page holds all of this chat's messages |
| GetMessages.GetMessagesUseCase.constructor | backend/application/use_cases/get_messages.py:16-39 | the use case holds the chat id, user id, cursor and repositories |
| GetMessages.GetMessagesUseCase.EnforcePermissionPolicy | backend/application/use_cases/get_messages.py:61-78 | Ok iff the chat found by id has the user as participant, read-only |
| GetMessages.GetMessagesUseCase.MakeOutgoingData | backend/application/use_cases/get_messages.py:80-110 | an empty page gets cursor '' and no flag; otherwise the cursor parses to the last message's key |
| GetMessages.GetMessagesUseCase.Execute | backend/application/use_cases/get_messages.py:112-128 | the result is `GetMessagesResult` of the current tables, read-only |
| CreateChat.EnforcePermissionPolicy | backend/application/use_cases/create_chat.py:37-54 | Ok iff the requester is among the user ids; otherwise ChatCreationDenied |
| CreateChat.PrepareQuery | backend/application/use_cases/create_chat.py:56-72 | the filter is the participants sorted by id, a permutation of the chat's; already sorted participants are used unchanged; upsert and return-after are set |
| CreateChat.WithIdAt | backend/infrastructure/database/repositories/chats.py:45 | setting the id by key touches only the document holding that key |
| CreateChat.CreateChatCorrect | backend/application/use_cases/create_chat.py:81-107 | denial iff the requester is not a user, and then nothing changes; an existing chat with an id is returned and nothing changes; an existing chat without one gets its key's string form as id, in place, and nothing else changes; with no match exactly one chat is appended, under the next key, with that key's string form as id, the sorted profiles and no messages; a returned chat is stored; the table stays consistent |
| CreateChat.CreateChatIdempotent | backend/application/use_cases/create_chat.py:65-105 | asking again with the profiles in any order returns the same chat and changes nothing |
| CreateChat.CreateChatUseCase.constructor | backend/application/use_cases/create_chat.py:15-35 | the use case holds the requester, the user ids, the directory and the repository |
| CreateChat.CreateChatUseCase.GetUsersInformation | backend/application/use_cases/create_chat.py:74-79 | the directory's profiles for the user ids |
| CreateChat.CreateChatUseCase.Execute | backend/application/use_cases/create_chat.py:81-107 | the result and the new table are those `CreateChatResult` gives for the old table |
| UpdateChatRelatedUser.EnforceAuthorizationPolicy | backend/application/use_cases/update_chat_related_user.py:31-43 | Ok iff the profile's id is the requester's; otherwise ChatUpdatingDenied |
| UpdateChatRelatedUser.PropagationKeepsChats | backend/infrastructure/database/repositories/chats.py:81-85 | propagation keeps keys, ids, counters and id order, leaves chats without the user alone, and a second propagation changes nothing |
| UpdateChatRelatedUser.UpdateChatUserUseCase.constructor | backend/application/use_cases/update_chat_related_user.py:18-29 | the use case holds the profile, the requester and the repository |
| UpdateChatRelatedUser.UpdateChatUserUseCase.Execute | backend/application/use_cases/update_chat_related_user.py:45-52 | a denied request changes nothing; otherwise the profile is propagated into every chat of the user |
| GetChats.CreateFilters | backend/application/use_cases/get_chats.py:31-37 | the filter matches exactly the chats with the user as participant and at least one message |
| GetChats.FindKeepsOrder | backend/infrastructure/database/repositories/chats.py:69-70 | the listed chats keep ascending storage order |
| GetChats.EmptyChatNotListed | backend/application/use_cases/get_chats.py:35 | a chat with no messages, such as a newly created one, is never listed |
| GetChats.GetChatsUseCase.constructor | backend/application/use_cases/get_chats.py:12-21 | the use case holds the requester and the repository |
| GetChats.GetChatsUseCase.Execute | backend/application/use_cases/get_chats.py:23-29 | exactly the user's chats that hold messages, in storage order, read-only |

Two behaviours of the code that a reader of the use cases might not expect, both modelled as written:

- A message with a taken client id and an unknown chat id is published with reason InvalidChatId, not Duplicated. Both validations run and the second rejection overwrites the first (backend/application/use_cases/process_message.py:60-93; `MessageEntity.RejectOverwrites`, `ProcessMessage.DuplicateReported`).
- The older-messages flag of a page is true when any stored message of any chat is older than the page's last message. Its query has no chat or user condition (backend/infrastructure/database/repositories/messages.py:93; `GetMessages.PreviousFlagCountsOtherChats`). The direction that holds is `GetMessages.NoPreviousMeansComplete`.

## Left out

- PrepareQuery: the query passes the integer 2 as the find-and-modify's return-document option, where the message repository passes the driver's "after" constant (backend/infrastructure/database/repositories/messages.py:66). The model reads 2 as "return the document after the update" (`returnAfter`). The database driver is not part of this model. If the driver accepts only its two boolean constants for this option, every chat creation fails there, and the model does not capture that failure.
- The repository ports are not modelled as interfaces: the use cases hold the in-memory repository classes directly. The model has no way to state an abstract interface with several implementations.
- Native keys are naturals written as decimal numerals, not 24-digit hexadecimal object ids. Key generation is the table's `nextKey` counter, so keys strictly increase on insert. Upper-case hexadecimal forms that `ObjectId` also accepts have no counterpart.
- `find_one` and `find` return documents in insertion order. The store's own result order when no sort is given is taken to be that order.
- Exceptions are modelled as `Result` errors.
  - A chat id that names no chat, when reading messages, fails in the code with a TypeError from iterating None. Here it is `ChatNotFound`.
  - An invalid cursor or key string is `InvalidObjectId`.
- The user directory is an HTTP call with retries and jitter. It is a function from user ids to profiles held by `CreateChatUseCase`.
- Publishing to the broker records the message's representation in `Publisher.sent`. JSON encoding, the connection, consuming, the internal queue and message decoding are left out.
- The message entity's own source file is not part of this model. Its fields are those of the incoming message plus `id`, `status`, `delivered_at`, `is_edited`, `is_deleted` and `reject_reason`. No step of the core marks a message accepted, so an accepted message keeps status pending. Reloading the stored document after `update_id` is modelled as taking its message fields.
- Participant profiles are fixed records of id, username, email and avatar URL. Other keys in the directory's answer or in a pushed profile are not modelled. So is a pushed profile without an `id`, which the code denies because None differs from every user id.
- `ProcessMessage.ProcessMessageUseCase.Execute` and the other state-changing methods treat each request as atomic. Concurrent requests are not modelled. Neither is a failure between the insert and the id back-fill, which can leave a chat with no id.
- Logging, authentication, HTTP routing, controllers other than the outgoing-record projections, and settings other than `messages_limit` are left out.
