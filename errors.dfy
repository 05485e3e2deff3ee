/**
 * The exceptions that cross the layers of the request pipeline, as one closed datatype.
 * `InvalidTenantError` is declared in src/services/tenant_service.py and `ItemNotFoundError`
 * in src/services/items_service.py; the others are Python's and the web framework's own.
 */
module Errors {

  datatype AppError =
    | InvalidTenant(message: string)            // InvalidTenantError(message)
    | ItemNotFound(message: string)             // ItemNotFoundError(message)
    | ValueError(message: string)               // ValueError(message): a business-rule violation
    | HttpException(statusCode: int, detail: string)
    | RequestValidation(detail: string)         // the framework's request-schema rejection
    | Unexpected(message: string)               // any other exception (Exception, database errors)
}
