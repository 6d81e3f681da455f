# ViFood backend: payments, vouchers, carts, orders, ratings and chat in Dafny

This project models the business core of the ViFood food-ordering backend (Express and
Mongoose) and proves properties of it. The modelled parts are:

- **VNPay adapter.** Parameter objects are signed over their keys in ascending order, and a
  callback's signature is checked.
- **Checkout settlement.** A voucher discount is applied and the voucher decremented. A
  pending payment and the gateway request are built. The gateway's callback marks the
  payment paid.
- **Vouchers.** The schema with its defaults and validators, and create, update, delete,
  lookup and filtering by code.
- **Carts.** Each user's `cartData` counter map, counted up and down, and the `getCart`
  listing.
- **Orders.** All-or-nothing order creation from priced line items. The order-detail
  handlers, with owner-or-admin authorisation.
- **Ratings.** One rating per user and product. Each product's list of rating ids and its
  average rating follow the rating collection.
- **Chat.** Get-or-create by participant pair and the participant-only message log over
  HTTP, plus the socket's rooms and events.

Collections are fields of small store classes (`OrderStore`, `RatingStore`, `ChatStore`, ...)
that the handlers update in place.

- Ids are `nat`s drawn from a per-store counter.
- Money, quantities and rating values are `real`, which is exact.
- Time is passed in as `now`.
- HMAC-SHA512, `encodeURIComponent`, the deployment settings and the image upload service are
  function-typed parameters. Nothing is assumed of them beyond determinism.
- Errors are `Result` values. The variant of a handler's `Err` names its HTTP class, and
  `Thrown` stands for an exception raised by a service function.

Files:

- `common.dfy`: results, errors, the caller, JavaScript truthiness, `$pull`.
- `lex_order.dfy`: the string order of `Array.prototype.sort`.
- `vnpay_service.dfy`: the VNPay adapter.
- `voucher_model.dfy`, `voucher_controller.dfy`: vouchers.
- `payment_service.dfy`: checkout settlement.
- `cart_controller.dfy`: carts.
- `order_model.dfy`, `order_controller.dfy`, `order_detail_controller.dfy`: orders.
- `rating_controller.dfy`: ratings.
- `chat_model.dfy`, `chat_controller.dfy`, `chat_socket.dfy`: chat.

## Model

| member | source | states |
|---|---|---|
| Common.Pull | controllers/orderDetailController.js:188 | `$pull` removes every occurrence of the id. Every other id is kept, and a list without the id is unchanged. |
| Common.PullAppended | controllers/ratingController.js:189 | Pulling an id that was just pushed, and occurs nowhere else, restores the list. |
| Common.PullConcat | controllers/ratingController.js:189 | `$pull` on two runs is `$pull` on each. |
| LexOrder.Irreflexive | utils/vnpayService.js:16 | The key order used by `sort()` is irreflexive. |
| LexOrder.Asymmetric | utils/vnpayService.js:16 | The key order is asymmetric. |
| LexOrder.Transitive | utils/vnpayService.js:16 | The key order is transitive. |
| LexOrder.Total | utils/vnpayService.js:16 | Any two different keys are ordered one way or the other. |
| VnpayService.Remove | utils/vnpayService.js:65 | `delete obj[key]` keeps exactly the properties with other keys, and keys stay distinct. |
| VnpayService.SortByKey | utils/vnpayService.js:16-19 | The sorted object holds exactly the same properties (a permutation). |
| VnpayService.InsertSorted | utils/vnpayService.js:16-19 | One insertion step keeps the object sorted. |
| VnpayService.InsertDistinct | utils/vnpayService.js:16-19 | Inserting a new key keeps the keys distinct. |
| VnpayService.SortByKeySorted | utils/vnpayService.js:16-19 | The result is in ascending key order. |
| VnpayService.SortByKeyDistinct | utils/vnpayService.js:16-19 | Sorting keeps keys distinct. |
| VnpayService.SortedUnique | utils/vnpayService.js:16-19 | With distinct keys there is only one sorted arrangement of a set of properties. |
| VnpayService.TerminatedIsJoined | utils/vnpayService.js:21-26 | Appending `&` after every pair and dropping the last character gives the pairs joined by `&`. |
| VnpayService.BuildQueryString | utils/vnpayService.js:21-26 | The loop and the `slice(0, -1)` yield exactly the `key=value` pairs joined by `&`, in order. |
| VnpayService.PairOccurs | utils/vnpayService.js:22-23 | Every property contributes its `key=value` pair at its place, even with an empty value (as `vnp_BankCode`). |
| VnpayService.GenerateHash | utils/vnpayService.js:15-33 | The hash is HMAC-SHA512 under the secret of the merchant code followed by the canonical string of the key-sorted properties. |
| VnpayService.SignatureOrderIndependent | utils/vnpayService.js:15-33 | Two objects with the same properties (distinct keys) in any insertion order sort alike and get the same signature. |
| VnpayService.RemoveAppended | utils/vnpayService.js:57-65 | Deleting `vnp_SecureHash` after it was assigned restores the unsigned object. |
| VnpayService.RemoveKeepsOthers | utils/vnpayService.js:65 | Deleting one key leaves the value of every other key unchanged. |
| VnpayService.SignedVerifies | utils/vnpayService.js:56-67 | Round trip: an object the adapter signed passes verification, and stripping the hash gives back the unsigned object. |
| VnpayService.TamperedFails | utils/vnpayService.js:63-67 | A hash other than the signature of the remaining properties fails verification. |
| VnpayService.SignedDistinct | utils/vnpayService.js:57 | Adding the hash keeps the keys distinct. |
| VnpayService.RequestHasNoHash | utils/vnpayService.js:41-54 | The unsigned request has no `vnp_SecureHash`. |
| VnpayService.RequestAmount | utils/vnpayService.js:38-44 | `vnp_Amount` is a hundred times total minus discount. |
| VnpayService.RequestTxnRef | utils/vnpayService.js:37-52 | `vnp_TxnRef` is the order id. |
| VnpayService.SignedRequestFacts | utils/vnpayService.js:36-59 | The signed request keeps the amount and the transaction reference, and verifies. |
| VnpayService.SignParams | utils/vnpayService.js:56-57 | The hash of the object is stored as `vnp_SecureHash`. |
| VnpayService.CreateVnpayPaymentRequest | utils/vnpayService.js:36-60 | Returns the signed request parameters for the amount due and the gateway URL. |
| VnpayService.QueryParams.Delete | utils/vnpayService.js:65 | The query object loses exactly the deleted key. |
| VnpayService.VerifyPaymentReturn | utils/vnpayService.js:63-68 | Deletes `vnp_SecureHash` from the caller's object. The result is true exactly when the removed hash equals the signature of the remaining properties. |
| VoucherModel.Instantiate | models/voucherModel.js:4-62 | `save()` stores a document only when every required field is present and both validators pass. The defaults are applied (`percentage`, 0, `active`) and every given field is kept. The outcome is None exactly when a required field is missing, an enum value is outside its enumeration, or a validator fails. |
| VoucherModel.SaveRejectsInvalid | models/voucherModel.js:20-28 | A percentage voucher (explicit or by default) whose discount is outside [0, 100] is never stored. |
| VoucherModel.DefaultsApplied | models/voucherModel.js:11-57 | Absent `discountType`, `maxDiscountAmount` and `status` take `percentage`, 0 and `active`. |
| VoucherController.BodyCheck | controllers/voucherController.js:17-24 | The handler refuses a percentage outside [0, 100], and a given expiry that is not after now, and nothing else. |
| VoucherController.CreateVoucher | controllers/voucherController.js:6-45 | The checks run in order: taken code, then handler checks, then schema. A failure changes nothing. Success adds exactly one `active` voucher under its code. |
| VoucherController.Patch | controllers/voucherController.js:108-122 | Every supplied field is replaced and every absent one kept. The code is unchanged and `updatedDate` is now. |
| VoucherController.PatchNothing | controllers/voucherController.js:108-122 | An empty update only refreshes `updatedDate`. |
| VoucherController.UpdateVoucher | controllers/voucherController.js:93-134 | Handler checks, then not-found. Succeeds exactly when both pass, and then replaces only that voucher with its patch. |
| VoucherController.DeleteVoucher | controllers/voucherController.js:137-149 | Removes exactly the voucher under the code, or reports not-found with nothing changed. |
| VoucherController.GetVoucherByCode | controllers/voucherController.js:78-90 | Returns the stored voucher with that code, or not-found exactly when none has it. |
| VoucherController.GetVouchers | controllers/voucherController.js:48-75 | Exactly the vouchers that meet every supplied criterion. No criterion gives all vouchers. |
| VoucherController.FilterNarrows | controllers/voucherController.js:59-62 | Adding criteria only narrows the result. |
| PaymentService.FindActiveVoucher | utils/paymentService.js:19 | The voucher under the code if it is `active`, else none. |
| PaymentService.AppliedVoucher | utils/paymentService.js:18-22 | A voucher applies exactly when the code is non-empty and names an active voucher that has not expired and has quantity left. |
| PaymentService.Discount | utils/paymentService.js:24-31 | A percentage of the total or the fixed amount, capped by a positive `maxDiscountAmount`. |
| PaymentService.PercentageWithinTotal | utils/paymentService.js:24-31 | A schema-valid percentage voucher takes off between 0 and the order total. |
| PaymentService.FixedDiscountNotClamped | utils/paymentService.js:24-46 | A fixed voucher worth more than the order leaves a negative amount due; nothing clamps it. |
| PaymentService.Redeemed | utils/paymentService.js:34 | Only `quantity` changes, down by one. |
| PaymentService.CheckoutDiscount | utils/paymentService.js:17-38 | 0 without an applied voucher, else that voucher's discount. |
| PaymentService.NewPayment | utils/paymentService.js:44-53 | The record has order, transaction reference, amount (total minus discount), discount, code, `pending`, `VNPay`. `applied_voucher` is set exactly when a voucher applied, to that voucher's id. |
| PaymentService.ApplyVoucher | utils/paymentService.js:17-38 | Without an applicable voucher nothing changes. Otherwise the voucher is stored decremented, unless the decremented document fails the schema; then nothing changes and the call fails. |
| PaymentService.BuildRequest | utils/paymentService.js:41 | The request carries the gateway URL, the amount due in hundredths, the order id as reference, and a signature the gateway's check accepts. |
| PaymentService.RecordPayment | utils/paymentService.js:41-57 | Returns the gateway request for the amount due and appends exactly one pending payment. |
| PaymentService.CreatePayment | utils/paymentService.js:9-58 | An unknown order throws with nothing changed. Otherwise it succeeds exactly when the voucher step does. Without an applicable voucher no voucher changes; with one, only that voucher is decremented. A voucher whose decremented document fails the schema gives the voucher validation error, with nothing changed. On success one payment is recorded. |
| PaymentService.CreatePaymentAsWritten | utils/paymentService.js:9-58 | As written, every call fails and no payment is ever saved. An unknown order and a voucher failing the schema give their own errors with no voucher changed; otherwise the `voucher` reference error follows, even after a voucher has been decremented. |
| PaymentService.FindPayment | utils/paymentService.js:71 | The first payment whose `transaction_id` matches; none exactly when no payment matches. A numeric reference matches the string it is cast to. |
| PaymentService.MarkPaid | utils/paymentService.js:76-78 | Only that payment changes, to `success` dated now. |
| PaymentService.MarkPaidIdempotent | utils/paymentService.js:71-78 | A second confirmation finds the same payment and leaves it confirmed, dated by the later call. No other payment changes. |
| PaymentService.FindPaymentSameKeys | utils/paymentService.js:71 | The lookup depends only on the transaction references. |
| PaymentService.NumericRefCast | utils/paymentService.js:71 | A numeric `vnp_TxnRef` finds the same payment as its string form, because `transaction_id` is a String path (models/paymentModel.js:27-29). |
| PaymentService.PaymentReturn | utils/paymentService.js:61-81 | A bad hash throws, and so does an unknown reference; neither changes any payment. Otherwise it marks the first matching payment paid. The hash key is deleted from the query in every case. |
| CartController.Added | controllers/cartController.js:39-43 | A truthy count goes up by one. An absent or zero count becomes 1. Every other entry is unchanged. |
| CartController.Removed | controllers/cartController.js:82-87 | The count goes down by one and the key is deleted when it reaches 0. Every other entry is unchanged. |
| CartController.AddedPositive | controllers/cartController.js:39-43 | Adding keeps every count at least 1. |
| CartController.RemovedPositive | controllers/cartController.js:82-87 | Removing keeps every count at least 1. |
| CartController.RemoveAfterAdd | controllers/cartController.js:39-87 | An added item can be removed, and removing it restores the cart. |
| CartController.AddAfterRemove | controllers/cartController.js:39-87 | Removing one and adding it back restores the cart. |
| CartController.FindVariant | controllers/cartController.js:28 | `findById`: a variant with that id, or none exactly when there is none. |
| CartController.AddToCart | controllers/cartController.js:10-53 | The checks run in order: missing id, unknown user, missing or inactive variant; each changes nothing. It succeeds exactly when all three pass, and then counts that user's item up and keeps the invariant. |
| CartController.RemoveFromCart | controllers/cartController.js:59-97 | The checks run in order: missing id, unknown user, item not in cart; each changes nothing. It succeeds exactly when all three pass, and then counts the item down (deleting it at 0) and keeps the invariant. |
| CartController.AssignAt | controllers/cartController.js:130-135 | The assignments for one product map each of its variants to its name and description and leave other keys alone. |
| CartController.ProductMapOwner | controllers/cartController.js:128-136 | A variant maps to the last product listing it, and is absent when none lists it. |
| CartController.BuildProductMap | controllers/cartController.js:128-136 | The nested loops build exactly that map. |
| CartController.Selected | controllers/cartController.js:121-122 | Exactly the active variants that are in the cart. |
| CartController.CartItems | controllers/cartController.js:139-154 | One entry per selected variant, in order. |
| CartController.SelectedUnique | controllers/cartController.js:121-122 | The selection keeps ids distinct. |
| CartController.GetCart | controllers/cartController.js:103-161 | The intended handler: an unknown user gives not-found. An empty cart gives an empty list. Otherwise the entries of the selected variants, named after the product that lists each. |
| CartController.ListingProducts | controllers/cartController.js:125 | Exactly the products that list a variant of the cart, in collection order. |
| CartController.GetCartAsWritten | controllers/cartController.js:103-161 | As written: a non-empty cart fails with 500 exactly when some product lists one of its variants. Otherwise every entry is an "Unknown Product". |
| CartController.GetCartAsWrittenFails | controllers/cartController.js:125-136 | For a cart whose variant a product lists, the intended reply names the product, while the handler as written fails. |
| CartController.GetCartEntries | controllers/cartController.js:139-154 | Each entry carries the cart count of its variant. Every active variant in the cart has an entry. |
| CartController.GetCartDistinct | controllers/cartController.js:139-154 | No variant has two entries. |
| OrderController.FindPriced | controllers/orderController.js:30 | The first variant with that id, or none exactly when no variant has it. |
| OrderController.LineFor | controllers/orderController.js:22-46 | The checks run in order: unknown product, then unknown variant. Otherwise the detail has the variant's unit price; when the item has a numeric quantity, the detail keeps it and has price times quantity as its total. A missing quantity does not stop the pricing. |
| OrderController.LinesOk | controllers/orderController.js:18-49 | On success there is one detail per line item, in order. |
| OrderController.LinesQuantities | controllers/orderController.js:18-46 | On success every detail is unattached to an order, and when every item has a numeric quantity each detail keeps its item's quantity. |
| OrderController.InsertedQuantities | controllers/orderController.js:37-52 | The details `insertMany` stores from the counter carry the submitted quantities, one per line item in order. |
| OrderController.LinesError | controllers/orderController.js:18-49 | A failure is the error of the first failing line item, and every earlier item succeeded. |
| OrderController.LinesStopAtError | controllers/orderController.js:18-49 | Once a prefix fails the whole list fails the same way. |
| OrderController.TotalAppend | controllers/orderController.js:48 | The running total distributes over concatenation. |
| OrderController.Range | controllers/orderController.js:52 | `insertMany` ids are consecutive from the counter. |
| OrderController.InsertAll | controllers/orderController.js:52 | The inserted details are under their fresh ids, and the rest is unchanged. |
| OrderController.SaveOrder | controllers/orderController.js:52-62 | Inserts the details and saves one pending order listing their ids, with a fresh id. The store invariant is kept. |
| OrderController.PriceLines | controllers/orderController.js:14-49 | The loop computes the specification `Lines`, and on success the sum of the line totals. |
| OrderController.CreateOrder | controllers/orderController.js:9-62 | The intended handler: fails, storing nothing, exactly when a line item fails pricing or some line item has no numeric quantity. Pricing errors come first; the missing quantity is the 400 from `insertMany`'s validation (models/orderDetailModel.js:10-13). Otherwise inserts the details, each with its item's quantity, and saves the pending order with the sum of the totals. |
| OrderController.CreateOrderAsWritten | controllers/orderController.js:9-73 | As written: pricing and missing-quantity errors as in `CreateOrder`, with nothing stored. Otherwise the details are inserted, no order is stored, the reply is the 400 order validation error, and no order lists the new details. |
| OrderDetailController.NewDetail | controllers/orderDetailController.js:26-34 | The detail takes the body's fields, linked to the order, with `discount_unit \|\| 0`. |
| OrderDetailController.CreateOrderDetail | controllers/orderDetailController.js:8-46 | The checks run in order: missing or falsy fields, unknown order, neither owner nor admin; each changes nothing. It succeeds exactly when all three pass, and then saves the detail and appends its id to the order. |
| OrderDetailController.OrderOfDetail | controllers/orderDetailController.js:139 | The populated order exists exactly when the detail names an existing order. |
| OrderDetailController.GetOrderDetailById | controllers/orderDetailController.js:107-130 | Checks: not found, then an unloadable order (server error), then neither owner nor admin. Otherwise returns the detail. |
| OrderDetailController.Patch | controllers/orderDetailController.js:153-158 | `product`, `quantity`, `price_per_unit` and `total_price` replace only when truthy. `note` and `discount_unit` replace when defined. |
| OrderDetailController.PatchNothing | controllers/orderDetailController.js:153-158 | An empty update leaves the detail as it was. |
| OrderDetailController.UpdateOrderDetail | controllers/orderDetailController.js:135-167 | The same checks, each with its own reply: not found, 500, then 403 for a caller who is neither owner nor admin. It succeeds exactly when all pass, and then replaces only that detail with its patch. Orders never change. |
| OrderDetailController.DeleteOrderDetail | controllers/orderDetailController.js:172-197 | The same checks, each with its own reply: not found, 500, then 403 for a caller who is neither owner nor admin. It succeeds exactly when all pass, and then pulls the id from its order and removes the detail. The store invariant is kept. |
| OrderDetailController.GetAllOrderDetails | controllers/orderDetailController.js:51-70 | Exactly the details meeting the filters. A non-admin sees only details of their own orders. |
| OrderDetailController.NonAdminIgnoresOrderId | controllers/orderDetailController.js:57-68 | For a non-admin the `orderId` parameter makes no difference. |
| RatingController.OfProduct | controllers/ratingController.js:9 | Exactly the ratings of the product. |
| RatingController.OfProductAppend | controllers/ratingController.js:9 | Selection distributes over concatenation. |
| RatingController.Average | controllers/ratingController.js:10-14 | 0 for no ratings, otherwise the value whose product with the count is the sum. |
| RatingController.SumBounds | controllers/ratingController.js:13 | Values in [1, 5] sum to between n and 5n. |
| RatingController.AverageBounds | controllers/ratingController.js:13 | The average of values in [1, 5] lies in [1, 5]. |
| RatingController.Ids | controllers/ratingController.js:50 | The ids of the ratings, in order. |
| RatingController.AggregateInRange | controllers/ratingController.js:10-14 | A product's agreed average is 0 with no ratings and otherwise in [1, 5], given schema-valid values. |
| RatingController.FindById | controllers/ratingController.js:129 | The position of the rating with the id; none exactly when there is none. |
| RatingController.RemoveAt | controllers/ratingController.js:186-189 | Removing a rating pulls exactly its id from its product's rating ids. |
| RatingController.RemoveKeepsOthers | controllers/ratingController.js:186 | Removing a rating changes no other product's ratings. |
| RatingController.ReplaceKeepsOthers | controllers/ratingController.js:139-149 | Replacing a rating in place keeps every product's ids, and other products' ratings. |
| RatingController.Pushed | controllers/ratingController.js:50 | `$push` appends the id to that product only. |
| RatingController.Pulled | controllers/ratingController.js:189 | `$pull` removes the id from that product only. |
| RatingController.Recomputed | controllers/ratingController.js:7-20 | Only that product's average changes, to the aggregate. |
| RatingController.CreateKeepsAgreement | controllers/ratingController.js:47-53 | Append, push and recompute keep every product's ids and average equal to the aggregate. |
| RatingController.CreateKeepsConsistent | controllers/ratingController.js:34-53 | A fresh valid rating by a user who has not rated the product keeps the whole invariant, including one per user and product. |
| RatingController.UpdateKeepsAgreement | controllers/ratingController.js:139-152 | Replace and recompute keep the aggregates. |
| RatingController.UpdateKeepsConsistent | controllers/ratingController.js:139-152 | A valid new value and comment keep the whole invariant. |
| RatingController.DeleteKeepsAgreement | controllers/ratingController.js:186-192 | Remove, pull and recompute keep the aggregates. |
| RatingController.DeleteKeepsConsistent | controllers/ratingController.js:186-192 | Removal keeps the whole invariant. |
| RatingController.UpdateProductAverageRating | controllers/ratingController.js:7-20 | Sets that product's average to 0 or sum over count of its ratings; nothing else changes. |
| RatingController.CreateRating | controllers/ratingController.js:23-64 | The checks run in order: a second rating by the same user for the product, then a missing product or an invalid value or comment; each changes nothing. It succeeds exactly when both pass, and then stores the rating under a fresh id, pushes the id and recomputes the average. |
| RatingController.UpdateRating | controllers/ratingController.js:120-159 | The checks run in order: not found, not the author, invalid value or comment; each changes nothing. Success sets value and comment in place and recomputes the average. |
| RatingController.DeleteRating | controllers/ratingController.js:170-198 | The checks run in order: not found, not the author; each changes nothing. Success removes the rating, pulls its id and recomputes the average. |
| ChatModel.TextOr | controllers/chatController.js:73 | `text \|\| ''`. |
| ChatModel.Stamp | controllers/chatController.js:84 | The stored message keeps sender, text and time. It gets a fresh id, and its images get the following ids in order. |
| ChatModel.FindChat | controllers/chatController.js:25-27 | The first chat containing both users; none exactly when no chat does. |
| ChatModel.FindChatSymmetric | utils/websocket.js:15-17 | The lookup does not depend on the order of the two users. |
| ChatModel.CreatedChatFound | controllers/chatController.js:31-36 | A chat created for the pair is then found for either order. |
| ChatModel.ChatsOf | utils/websocket.js:73 | Exactly the chats the user takes part in. |
| ChatModel.FindId | controllers/chatController.js:110-120 | `messages.id(x)` and `image.id(x)`: the position of the first entry with the id; none exactly when no entry has it. |
| ChatModel.GetOrCreateChat | controllers/chatController.js:23-43 | Returns an existing chat of the pair and creates nothing. Otherwise appends `[me, other]` with no messages. A later call with the pair in either order finds the same chat. The socket helper `getOrCreateChat` (utils/websocket.js:13-36) has the same logic. |
| ChatModel.AppendMessage | controllers/chatController.js:84-85 | Appends the stamped message to that chat only and advances the id counter. |
| ChatController.ImageRefs | controllers/chatController.js:77-82 | One image per uploaded file, in order. |
| ChatController.NewMessage | controllers/chatController.js:71-82 | The message has the caller as sender, the text or `''`, and images from the files. |
| ChatController.SendMessage | controllers/chatController.js:48-92 | The checks run in order: missing chat id or neither text nor files, unknown chat, non-participant; each changes nothing. It succeeds exactly when all pass, and then appends exactly one message at the end of that chat. |
| ChatController.SendMessageAsWritten | controllers/uploadImageController.js:23-34 | As written: the reply is the upload's own (its error, "No image files provided.", or the file paths), and no message is ever stored. |
| ChatController.SentImagesMatchFiles | controllers/chatController.js:77-84 | The stored images match the files one to one, in order, under consecutive fresh ids. |
| ChatController.WithoutImage | controllers/chatController.js:129 | Only the image at that position is removed. The chats, the other messages and the message's other fields are unchanged. |
| ChatController.WithoutImageKeepsIdsBelow | controllers/chatController.js:129-130 | Removing an image keeps every remaining message and image id below the next fresh id, so the store stays valid. |
| ChatController.DeleteMessageImage | controllers/chatController.js:97-136 | The checks run in order: missing id, chat, message, neither sender nor admin, image; each changes nothing. Success removes exactly that image. |
| ChatSocket.OnConnection | utils/websocket.js:73-79 | The socket joins exactly the rooms of the user's chats. |
| ChatSocket.SendMessage | utils/websocket.js:85-129 | The checks run in order: missing chat id or no text and no images, unknown chat, non-participant; each changes nothing. Otherwise it appends exactly one message and broadcasts the same message to the chat's room. |
| ChatSocket.JoinChat | utils/websocket.js:135-158 | Joins the room exactly when the chat exists and the user takes part in it. Otherwise the rooms are unchanged. A socket that holds only rooms of its user's chats keeps that property. |
| ChatSocket.LeaveChat | utils/websocket.js:164-171 | A chat id is required; leaving removes that room. |
| ChatSocket.ChatsOfGrow | utils/websocket.js:117-118 | Appending messages or chats never shrinks a user's set of chats. |

## Left out

- HTTP and socket plumbing is not modelled: status codes, reply bodies, `res`/`socket.emit`, socket.io server setup and CORS.
- Authentication is not modelled: JWT verification, and the caller arrives as a `Requester` or a socket's `user`.
- Mongoose query mechanics are not modelled: `populate`, `select`, `sort`, `skip`, `limit`, `countDocuments`, and the `search` regex of `getVouchers`. In CartController.GetCart, `productMap` is built from every product given, with the `variants` the projection at controllers/cartController.js:125 drops; products listing no cart variant add entries that are never read. The effect of that projection is CartController.GetCartAsWritten (see Findings).
- HMAC-SHA512 and `encodeURIComponent` are uninterpreted. So are `moment` formatting of `vnp_CreateDate` and the deployment settings.
- Nothing models JavaScript's conversion of a number to a string inside `encodeURIComponent`.
- Floating point is not modelled: amounts are exact reals, and `getCart`'s `discountedPrice.toFixed(2)` and the discount fields of a cart entry are left out.
- Images and files are not modelled:
  - Cloudinary and multer, `deleteImage`, and a rating's `images` and `req.file`.
  - A failed upload callback. In the model, an upload step either calls back or returns image refs. ChatController.SendMessageAsWritten covers the chat route, where it does neither (see Findings).
  - The socket's `uploadImages(images)` is the parameter `upload`.
- Exceptions outside the modelled error paths are not modelled: database failures and the generic 500 replies. In the socket, `Lỗi máy chủ khi gửi tin nhắn.` and `Lỗi máy chủ khi tham gia cuộc trò chuyện.` are not modelled either.
- Concurrency is not modelled: the voucher decrement, chat creation and the rating uniqueness check are modelled sequentially. The duplicate-key path (error 11000) of `createRating` therefore cannot occur.
- The string order of `sort()` compares UTF-16 code units; the model compares characters. `for...in` enumerates integer-like keys first; VNPay's keys are never integer-like.
- JavaScript's `String(n)`, which Mongoose applies to a numeric `vnp_TxnRef` before comparing it with the String path `transaction_id`, is the uninterpreted parameter `numberText`.
- The order total is read as `total_amount` in utils/paymentService.js and utils/vnpayService.js, but the schema names it `total_price`. The model reads the order's total.
- `createOrder` writes `order_detail` where the schema has `order_details`.
- `createOrder` omits the required `address`, `phone` and `method`. OrderController.CreateOrderAsWritten models the effect (see Findings). OrderController.CreateOrder and OrderController.SaveOrder model the intended success path.
- `createOrder` calls `createPayment` with the wrong arguments. This call is not part of this model.
- `createOrder` details carry no `order` link. The model follows the controllers' shape of orders and details.
- The order-detail schema has no `order`, `discount_unit` or `variant` field. The model follows the controllers.
- OrderDetailController.CreateOrderDetail: keeps the `order` link of a new detail. As written, strict mode drops `order: orderId` (controllers/orderDetailController.js:27), because models/orderDetailModel.js:4-25 declares no `order` path.
- OrderDetailController.GetOrderDetailById: as written, `populate('order')` never loads an order because no detail stores one, so every request for an existing detail ends in the 500 path. That is the path `OrderOfDetail` returns `None` for. The model follows the intended link.
- OrderDetailController.UpdateOrderDetail: as written, this ends in the same 500 path for every existing detail (line 139), for the same reason.
- OrderDetailController.DeleteOrderDetail: as written, this ends in the same 500 path for every existing detail (line 174), for the same reason.
- OrderDetailController.GetAllOrderDetails: as written, the `order` filter is on a path the schema lacks. Depending on Mongoose's `strictQuery` setting, it is either dropped or matches no detail. The model filters on the intended link.
- Chat messages use the handlers' shape (`text`, `image`) rather than the schema's (`message`, `images`).
- The chat list returned to the caller is not modelled. The socket broadcast carries the message as built, without stored ids.
- The rating schema keeps `images` as strings, while the handler builds objects. Images are left out.
- CartController.AddToCart: the model stores the new count. As written, `cartData` is a Mixed path (models/userModel.js:17). Mongoose documents that changes inside a Mixed path are not saved without `markModified`, and the handler edits a key of it in place (controllers/cartController.js:39-43). The count may therefore not persist.
- CartController.RemoveFromCart: the model stores the new count. As written, the handler makes the same unmarked in-place edit of `cartData` (controllers/cartController.js:82-87), which the Mongoose documentation says `save()` does not write.
- RatingController.CreateRating: as written, models/ratingModel.js:3 calls `new Schema(...)` with only `mongoose` imported. Loading the rating model throws a ReferenceError, so no rating handler runs. The model describes the handlers as if the schema loaded.
- RatingController.UpdateRating: as written, this never runs because the rating model fails to load (models/ratingModel.js:3).
- RatingController.CreateRating: the model runs the handler's body. As written, it is the callback passed to `uploadImage` (controllers/ratingController.js:24), which never calls it (controllers/uploadImageController.js:8-18). The reply is the upload's own and no rating is stored.
- RatingController.UpdateRating: the model runs the handler's body. As written, it is likewise never called back (controllers/ratingController.js:121).
- ChatController.SendMessage: models the handler's body as if the upload step called it back. As written, neither the route's `uploadImages` middleware (routes/chatRoute.js:33) nor the handler's own call (controllers/chatController.js:49) reaches it; see ChatController.SendMessageAsWritten.
- ChatSocket.SendMessage: the model treats `upload` as returning image refs, so it covers messages with images. As written, `uploadImages(images)` (utils/websocket.js:106) calls an Express handler with the array as its request. Multer's `upload.array` (config/multerConfig.js:17, controllers/uploadImageController.js:24) reads that request's headers, so the call throws inside the `try` (at best it returns `undefined`). The socket then emits `Lỗi máy chủ khi gửi tin nhắn.`, and no message with images is ever stored. Messages without images are modelled as written.
- RatingController.DeleteRating: as written, this never runs because the rating model fails to load (models/ratingModel.js:3).
- OrderController.CreateOrder: the text of the detail validation error is cut to `OrderDetail validation failed`; Mongoose appends the failing paths. A non-numeric quantity (a CastError) is modelled like a missing one.
- Mongoose behaviour is assumed as follows:
  - `findOneAndUpdate` drops undefined fields, so absent fields of a voucher update are kept.
  - `findOneAndUpdate` runs no validators, so an update is not checked against the schema.
  - `orderDetail.remove()`, `rating.remove()` and the chat's `image.remove()` (controllers/chatController.js:129) are assumed to work.
- `getChats` and the rating reads (`getAllRatings`, `getSpecificRatingbyId`, `getRatingsbyUser`, `getRatingsByProduct`) are not part of this model; they only read.
- `productModel` declares neither `ratings` nor `avgRating`. The model follows the rating handlers' writes.
- RatingController.DeleteRating: models the handler from its lookup (line 170) on. The check at line 165 reads `rating` before it is declared. For a non-admin it refuses; for an admin it throws outside the `try`. That check is left out.
- Order status transitions are not modelled: `updateOrderStatus` is imported by routes/orderRoute.js but defined in no controller.
- The `minOrderValue` eligibility rule is not modelled: the field is stored but settlement never checks it.
- controllers/paymentController.js duplicates `paymentReturn` and is not part of this model.
- The socket's error events carry no HTTP class. The model files them under the HTTP handlers' classes and keeps the socket's own texts.

## Findings

| source | as written | input that shows it | evidently intended | confidence | as-written member | corrected member |
|---|---|---|---|---|---|---|
| controllers/cartController.js:125 | `.select('name description')` leaves `variants` out of the products found, so `product.variants.forEach` at line 130 throws and the handler replies 500 "Error in fetching cart data." | a user whose cart holds any variant that some product lists | the cart entries with each variant's product name and description | not executed | CartController.GetCartAsWritten | CartController.GetCart |
| controllers/orderController.js:55-62 | the new order never sets the required `address`, `phone` and `method` (models/orderModel.js:21-28, 38-42). So `order.save()` raises a ValidationError after `insertMany` has stored the details, and the catch replies 400. No order is saved and `createPayment` is never reached. | any request whose line items all name an existing product and variant, and each has a numeric quantity | a pending order listing the inserted details | not executed | OrderController.CreateOrderAsWritten | OrderController.CreateOrder |
| controllers/chatController.js:49 | the message body is the callback of `uploadImages(req, res, cb)`, which ignores its third argument. The route also mounts `uploadImages` before `sendMessage` (routes/chatRoute.js:33), and it replies by itself without calling `next`. | any `POST /api/chats/messages`, e.g. a text-only message to a chat the caller takes part in | the message appended to the chat after the upload step | not executed | ChatController.SendMessageAsWritten | ChatController.SendMessage |
| utils/paymentService.js:52 | `applied_voucher: voucher ? voucher._id : null` reads `voucher`, which is only declared inside the block at line 19, so it throws a ReferenceError. This happens after any voucher has already been decremented, and no payment is saved. | any `orderId` of an existing order, with or without a discount code | the id of the voucher whose discount was applied, else null | not executed | PaymentService.CreatePaymentAsWritten | PaymentService.CreatePayment |
