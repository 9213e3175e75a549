/** The checkout state of `payments.service.ts`: the captured address, the
    delivery type and a total, each changed only by its own setter. */
module Payments {
  import opened Common

  /** The address captured in the first checkout step. */
  datatype Address = Address(street: string, city: string, country: string, zipCode: string)

  datatype DeliveryType = Standard | Express

  class PaymentService {
    var addressData: Option<Address>
    var deliveryType: DeliveryType
    var total: int

    constructor()
      ensures addressData == None && deliveryType == Standard && total == 0
    {
      addressData := None;
      deliveryType := Standard;
      total := 0;
    }

    /** `saveAddress` sets only the address. */
    method SaveAddress(data: Option<Address>)
      modifies this
      ensures addressData == data
      ensures deliveryType == old(deliveryType) && total == old(total)
    {
      addressData := data;
    }

    /** `setDelivery` sets only the delivery type. */
    method SetDelivery(kind: DeliveryType)
      modifies this
      ensures deliveryType == kind
      ensures addressData == old(addressData) && total == old(total)
    {
      deliveryType := kind;
    }

    /** `setTotal` sets only the total. */
    method SetTotal(amount: int)
      modifies this
      ensures total == amount
      ensures addressData == old(addressData) && deliveryType == old(deliveryType)
    {
      total := amount;
    }
  }
}
